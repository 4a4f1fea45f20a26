/** What a server session holds, explained by what happened to it; and what every packet the server sends means. */
module ServerHistory {
  import opened Bytes
  import opened Wire
  import opened Phases
  import UsersFile
  import opened ServerSpec
  import opened ServerProofs

  // ---------- the three steps that move a session ----------

  /** A HELLO arrives in HELLO and offers version 1 in one of the entries it announces, of eight at most. */
  ghost predicate Greets(s: Server, e: Event, sid: nat) {
    && e.EvRecv? && e.sid == sid && e.pkt.Hello? && sid in s.sessions && s.sessions[sid].phase == StHello
    && |e.pkt.versions| == 8 && exists v :: 0 <= v < 8 && v < e.pkt.numVersions && e.pkt.versions[v] == 1
  }

  /** The worker finds the session open, its credentials right, its name free and one of 64 slots free. */
  predicate Admitting(s: Server, e: Event, sid: nat) {
    && e.EvWork? && |e.junk| == HASH_LEN && s.queue != [] && s.queue[0] == sid && sid in s.sessions
    && var ss := s.sessions[sid];
       && !ss.closed && UsersFile.Verify(e.users, CString(ss.authName), ss.authHash, e.junk)
       && ss.authName !in s.registry && |s.registry| < 64
  }

  /** A BYE arrives in CONN_ESTABLISHED. */
  predicate Leaving(s: Server, e: Event, sid: nat) {
    e.EvRecv? && e.sid == sid && e.pkt.Bye? && sid in s.sessions && s.sessions[sid].phase == StEstablished
  }

  /** An AUTH_REQ arrives in AUTH. */
  predicate Requesting(s: Server, e: Event, sid: nat) {
    e.EvRecv? && e.sid == sid && e.pkt.AuthReq? && sid in s.sessions && s.sessions[sid].phase == StAuth
  }

  /** The pending credentials and their stream. */
  predicate SameCredentials(a: Session, b: Session) {
    b.authName == a.authName && b.authHash == a.authHash && b.authKey == a.authKey && b.authStream == a.authStream
  }

  /** What a packet does to state and credentials of session `x`. */
  ghost predicate RecvMove(s: Server, e: Event, s': Server, x: nat)
    requires e.EvRecv? && x in s.sessions
  {
    && x in s'.sessions
    && s'.sessions[x].phase == (if Greets(s, e, x) then StAuth else if Leaving(s, e, x) then StClosing else s.sessions[x].phase)
    && s'.sessions[x].respLost == s.sessions[x].respLost
    && (Requesting(s, e, x) ==>
          && s'.sessions[x].authName == e.pkt.name && s'.sessions[x].authHash == e.pkt.hash
          && s'.sessions[x].authStream == Some(e.stream)
          && s'.sessions[x].authKey == (if e.pkt.keyLen == 32 then e.pkt.key else s.sessions[x].authKey))
    && (!Requesting(s, e, x) ==> SameCredentials(s.sessions[x], s'.sessions[x]))
  }

  lemma HelloPhase(s: Server, sid: nat, stream: nat, p: Packet, ok: bool, ok2: bool, x: nat)
    requires Live(s, sid) && WellFormed(p) && p.Hello? && x in s.sessions
    ensures RecvMove(s, EvRecv(sid, stream, p, ok, ok2), OnHello(s, sid, stream, p, ok, ok2).server, x)
  {
    hide Text, Try, Complain;
  }

  lemma AuthReqPhase(s: Server, sid: nat, stream: nat, p: Packet, ok: bool, ok2: bool, x: nat)
    requires Live(s, sid) && WellFormed(p) && p.AuthReq? && x in s.sessions
    ensures RecvMove(s, EvRecv(sid, stream, p, ok, ok2), OnAuthReq(s, sid, stream, p, ok).server, x)
  {
    hide Text, Try, Complain;
  }

  lemma ChatPhase(s: Server, sid: nat, stream: nat, p: Packet, ok: bool, ok2: bool, x: nat)
    requires Live(s, sid) && WellFormed(p) && p.ChatSend? && x in s.sessions
    ensures RecvMove(s, EvRecv(sid, stream, p, ok, ok2), OnChatSend(s, sid, stream, p, ok, ok2).server, x)
  {
    hide Text, Try, Complain, Forward;
  }

  lemma ByePhase(s: Server, sid: nat, stream: nat, p: Packet, ok: bool, ok2: bool, x: nat)
    requires Live(s, sid) && WellFormed(p) && p.Bye? && x in s.sessions
    ensures RecvMove(s, EvRecv(sid, stream, p, ok, ok2), OnBye(s, sid), x)
  {
  }

  lemma RecvPhase(s: Server, sid: nat, stream: nat, p: Packet, ok: bool, ok2: bool, x: nat)
    requires Live(s, sid) && WellFormed(p) && x in s.sessions
    ensures RecvMove(s, EvRecv(sid, stream, p, ok, ok2), OnRecv(s, sid, stream, p, ok, ok2).server, x)
  {
    hide OnHello, OnAuthReq, OnChatSend, OnBye, RecvMove, Text, Try, Complain;
    match p
    case Hello(_, _, _) => HelloPhase(s, sid, stream, p, ok, ok2, x);
    case AuthReq(_, _, _, _, _) => AuthReqPhase(s, sid, stream, p, ok, ok2, x);
    case ChatSend(_, _, _, _, _, _) => ChatPhase(s, sid, stream, p, ok, ok2, x);
    case Bye(_) => ByePhase(s, sid, stream, p, ok, ok2, x);
    case _ => StillThere(s, EvRecv(sid, stream, p, ok, ok2), x);
  }

  lemma StillThere(s: Server, e: Event, x: nat)
    requires e.EvRecv? && x in s.sessions && !e.pkt.Hello? && !e.pkt.AuthReq? && !e.pkt.Bye?
    ensures RecvMove(s, e, s, x)
  {
  }

  lemma WorkPhase(s: Server, e: Event, x: nat)
    requires HeadOk(s) && Enabled(s, e) && e.EvWork? && x in s.sessions
    ensures var s' := Next(s, e).server;
            && x in s'.sessions
            && s'.sessions[x].phase == (if Admitting(s, e, x) then StEstablished else s.sessions[x].phase)
            && s'.sessions[x].respLost == (if Admitting(s, e, x) then Next(s, e).sends == [] else s.sessions[x].respLost)
            && SameCredentials(s.sessions[x], s'.sessions[x])
  {
    hide UsersFile.Verify, CString;
  }

  /** Every step, seen from one session. */
  lemma StepPhase(s: Server, e: Event, x: nat)
    requires HeadOk(s) && Enabled(s, e) && x in s.sessions
    ensures var s' := Next(s, e).server;
            && x in s'.sessions
            && s'.sessions[x].phase == (if Greets(s, e, x) then StAuth else if Admitting(s, e, x) then StEstablished
                                        else if Leaving(s, e, x) then StClosing else s.sessions[x].phase)
            && s'.sessions[x].respLost == (if Admitting(s, e, x) then Next(s, e).sends == [] else s.sessions[x].respLost)
            && (!Requesting(s, e, x) && e != EvStreamClosed(x) ==> SameCredentials(s.sessions[x], s'.sessions[x]))
            && (e == EvStreamClosed(x) ==> s'.sessions[x] == s.sessions[x].(authStream := None))
            && (Requesting(s, e, x) ==>
                  && s'.sessions[x].authName == e.pkt.name && s'.sessions[x].authHash == e.pkt.hash
                  && s'.sessions[x].authStream == Some(e.stream)
                  && s'.sessions[x].authKey == (if e.pkt.keyLen == 32 then e.pkt.key else s.sessions[x].authKey))
  {
    hide UsersFile.Verify, CString, OnRecv, Work;
    match e
    case EvRecv(sid, stream, p, ok, ok2) => RecvPhase(s, sid, stream, p, ok, ok2, x);
    case EvWork(_, _, _) => WorkPhase(s, e, x);
    case _ =>
  }

  // ---------- over whole runs ----------

  /** At some step before `i` the session was greeted, admitted, left. */
  ghost predicate Greeted(states: seq<Server>, events: seq<Event>, i: nat, sid: nat) {
    exists h :: 0 <= h < i && h < |events| && h < |states| && Greets(states[h], events[h], sid)
  }

  ghost predicate Admitted(states: seq<Server>, events: seq<Event>, i: nat, sid: nat) {
    exists h :: 0 <= h < i && h < |events| && h < |states| && Admitting(states[h], events[h], sid)
  }

  ghost predicate Left(states: seq<Server>, events: seq<Event>, i: nat, sid: nat) {
    exists h :: 0 <= h < i && h < |events| && h < |states| && Leaving(states[h], events[h], sid)
  }

  /** Admitted at a step that sent nothing. */
  ghost predicate Unanswered(states: seq<Server>, events: seq<Event>, i: nat, sid: nat) {
    exists h :: 0 <= h < i && h < |events| && h < |states| && Admitting(states[h], events[h], sid)
                && Enabled(states[h], events[h]) && Next(states[h], events[h]).sends == []
  }

  ghost predicate Explained(states: seq<Server>, events: seq<Event>, i: nat, sid: nat)
    requires i < |states| && sid in states[i].sessions
  {
    var ss := states[i].sessions[sid];
    && (ss.phase != StHello <==> Greeted(states, events, i, sid))
    && (ss.phase.Rank() >= 3 <==> Admitted(states, events, i, sid))
    && (ss.phase == StClosing <==> Left(states, events, i, sid))
    && (ss.respLost <==> Unanswered(states, events, i, sid))
  }

  /** A session that does not exist yet has no past. */
  lemma NoPast(states: seq<Server>, events: seq<Event>, i: nat, h: nat, sid: nat)
    requires Run(states, events) && h <= i < |states| && sid !in states[i].sessions
    ensures sid !in states[h].sessions
  {
    hide Next, Enabled;
    if sid in states[h].sessions {
      PhaseMonotone(states, events, h, i, sid);
    }
  }

  lemma FreshExplained(states: seq<Server>, events: seq<Event>, i: nat, sid: nat)
    requires Run(states, events) && 0 < i < |states| && sid !in states[i - 1].sessions && sid in states[i].sessions
    ensures Explained(states, events, i, sid)
  {
    hide Enabled, Next;
    RunInv(states, events, i - 1);
    BornFresh(states[i - 1], events[i - 1], sid);
    forall h | 0 <= h < i
      ensures sid !in states[h].sessions
    {
      NoPast(states, events, i - 1, h, sid);
    }
  }

  lemma BornFresh(s: Server, e: Event, sid: nat)
    requires HeadOk(s) && Enabled(s, e) && sid !in s.sessions && sid in Next(s, e).server.sessions
    ensures Next(s, e).server.sessions[sid] == FreshSession()
  {
    hide OnRecv, Work;
    match e
    case EvRecv(x, stream, p, ok, ok2) => RecvMoves(s, x, stream, p, ok, ok2);
    case EvWork(users, junk, ok) => WorkMoves(s, users, junk, ok);
    case _ =>
  }

  /**
   Over every run: a session is past HELLO exactly if a HELLO that offers version 1 arrived in HELLO; past AUTH exactly
   if the worker admitted it, for right credentials, a free name and a free slot; closing exactly if a BYE arrived
   while it was established; and its AUTH_RESP is lost exactly if the admitting step sent nothing.
   */
  lemma {:induction false} PhaseExplained(states: seq<Server>, events: seq<Event>, i: nat, sid: nat)
    requires Run(states, events) && i < |states| && sid in states[i].sessions
    ensures Explained(states, events, i, sid)
  {
    hide Enabled, Next;
    if i == 0 {
      assert false;
    } else if sid !in states[i - 1].sessions {
      FreshExplained(states, events, i, sid);
    } else {
      PhaseExplained(states, events, i - 1, sid);
      RunInv(states, events, i - 1);
      InvHead(states[i - 1]);
      assert Enabled(states[i - 1], events[i - 1]) && states[i - 1 + 1] == Next(states[i - 1], events[i - 1]).server;
      StepPhase(states[i - 1], events[i - 1], sid);
      ExplainStep(states, events, i, sid);
    }
  }

  lemma ExplainStep(states: seq<Server>, events: seq<Event>, i: nat, sid: nat)
    requires |states| == |events| + 1 && 0 < i < |states| && sid in states[i - 1].sessions && sid in states[i].sessions
    requires Explained(states, events, i - 1, sid) && Enabled(states[i - 1], events[i - 1])
    requires var s, e, a, b := states[i - 1], events[i - 1], states[i - 1].sessions[sid], states[i].sessions[sid];
             && b.phase == (if Greets(s, e, sid) then StAuth else if Admitting(s, e, sid) then StEstablished
                            else if Leaving(s, e, sid) then StClosing else a.phase)
             && b.respLost == (if Admitting(s, e, sid) then Next(s, e).sends == [] else a.respLost)
             && (Admitting(s, e, sid) ==> a.phase == StAuth)
    ensures Explained(states, events, i, sid)
  {
    hide Enabled, Next, Greets, Admitting, Leaving;
    LeavesFrom(states[i - 1], events[i - 1], sid);
  }

  lemma LeavesFrom(s: Server, e: Event, sid: nat)
    ensures Greets(s, e, sid) ==> !Admitting(s, e, sid) && !Leaving(s, e, sid) && s.sessions[sid].phase == StHello
    ensures Leaving(s, e, sid) ==> !Admitting(s, e, sid) && s.sessions[sid].phase == StEstablished
  {
    hide UsersFile.Verify;
  }

  // ---------- the pending request ----------

  /** No AUTH_REQ arrives in AUTH, and the stream is not closed, at the steps from `i` up to `j`. */
  ghost predicate Untouched(states: seq<Server>, events: seq<Event>, i: nat, j: nat, sid: nat) {
    forall h | i <= h < j && h < |events| && h < |states| :: !Requesting(states[h], events[h], sid) && events[h] != EvStreamClosed(sid)
  }

  lemma {:induction false} CredentialsStay(states: seq<Server>, events: seq<Event>, i: nat, j: nat, sid: nat)
    requires Run(states, events) && i <= j < |states| && sid in states[i].sessions && Untouched(states, events, i, j, sid)
    ensures sid in states[j].sessions && SameCredentials(states[i].sessions[sid], states[j].sessions[sid])
    decreases j - i
  {
    hide Next, Enabled, Requesting;
    if i < j {
      CredentialsStay(states, events, i, j - 1, sid);
      RunInv(states, events, j - 1);
      InvHead(states[j - 1]);
      assert Enabled(states[j - 1], events[j - 1]) && states[j - 1 + 1] == Next(states[j - 1], events[j - 1]).server;
      StepPhase(states[j - 1], events[j - 1], sid);
    }
  }

  /** Over every run, what is pending is the last AUTH_REQ that arrived in AUTH: its name, its hash and its stream. */
  lemma PendingIsLastRequest(states: seq<Server>, events: seq<Event>, i: nat, j: nat, sid: nat)
    requires Run(states, events) && i < j < |states| && Requesting(states[i], events[i], sid) && Untouched(states, events, i + 1, j, sid)
    ensures sid in states[j].sessions
    ensures var ss := states[j].sessions[sid];
            ss.authName == events[i].pkt.name && ss.authHash == events[i].pkt.hash && ss.authStream == Some(events[i].stream)
            && (events[i].pkt.keyLen == 32 ==> ss.authKey == events[i].pkt.key)
            && (events[i].pkt.keyLen != 32 ==> ss.authKey == states[i].sessions[sid].authKey)
  {
    hide Next, Enabled, Untouched;
    RunInv(states, events, i);
    InvHead(states[i]);
    assert Enabled(states[i], events[i]);
    StepPhase(states[i], events[i], sid);
    CredentialsStay(states, events, i + 1, j, sid);
  }

  /** No AUTH_REQ arrives in AUTH at the steps from `i` up to `j`. */
  ghost predicate NoRequest(states: seq<Server>, events: seq<Event>, i: nat, j: nat, sid: nat) {
    forall h | i <= h < j && h < |events| && h < |states| :: !Requesting(states[h], events[h], sid)
  }

  lemma {:induction false} StreamStaysClosed(states: seq<Server>, events: seq<Event>, i: nat, j: nat, sid: nat)
    requires Run(states, events) && i < j < |states| && events[i] == EvStreamClosed(sid) && NoRequest(states, events, i + 1, j, sid)
    ensures sid in states[j].sessions && states[j].sessions[sid].authStream == None
    decreases j
  {
    hide Next, Enabled, Requesting;
    RunInv(states, events, j - 1);
    InvHead(states[j - 1]);
    assert Enabled(states[j - 1], events[j - 1]) && states[j - 1 + 1] == Next(states[j - 1], events[j - 1]).server;
    if i + 1 == j {
      ClosedIsLive(states[i], sid);
    } else {
      StreamStaysClosed(states, events, i, j - 1, sid);
    }
    StepPhase(states[j - 1], events[j - 1], sid);
  }

  lemma ClosedIsLive(s: Server, sid: nat)
    requires Enabled(s, EvStreamClosed(sid))
    ensures sid in s.sessions
  {
  }

  /**
   A stream that closed is not used: in every run, if the stream of a session closes at step `i` and no AUTH_REQ of it
   arrives in AUTH before the worker takes it at step `w`, nothing is sent; if that lists the session, the listing has no
   stream and the answer counts as lost.
   */
  lemma ClosedStreamNotUsed(states: seq<Server>, events: seq<Event>, i: nat, w: nat, sid: nat)
    requires Run(states, events) && i < w < |events| && events[i] == EvStreamClosed(sid) && NoRequest(states, events, i + 1, w, sid)
    requires events[w].EvWork? && states[w].queue != [] && states[w].queue[0] == sid
    ensures Next(states[w], events[w]).sends == []
    ensures forall n | n in states[w + 1].registry && n !in states[w].registry ::
              states[w + 1].registry[n].owner == sid && states[w + 1].registry[n].stream == None
              && sid in states[w + 1].sessions && states[w + 1].sessions[sid].respLost
  {
    hide NoRequest, UsersFile.Verify, CString;
    StreamStaysClosed(states, events, i, w, sid);
  }

  /** What the worker says to an open session: exactly one AUTH_RESP on its stream if that is open and the send works. */
  lemma WorkerAnswers(s: Server, e: Event)
    requires HeadOk(s) && Enabled(s, e) && e.EvWork?
    ensures var sid := s.queue[0]; var ss := s.sessions[sid];
            Next(s, e).sends == if ss.closed || ss.authStream.None? || !e.ok then []
                                else [Send(ss.authStream.value, AuthResp(ss.id, if Admitting(s, e, sid) then 0 else 1))]
  {
    hide UsersFile.Verify, CString;
  }

  // ---------- what the packets mean ----------

  /** Why a packet is answered with an ERROR of this code. */
  ghost predicate Cause(s: Server, e: Event, code: byte)
    requires Enabled(s, e) && e.EvRecv?
  {
    var p, phase := e.pkt, s.sessions[e.sid].phase;
    || (code == 0x01 && e.ok && phase == StEstablished
          && ((p.KeyReq? && p.name !in s.registry)
              || (p.ChatSend? && (p.name !in s.registry || s.registry[p.name].stream.None?))))
    || (code == 0x02 && !e.ok && e.ok2 && phase == StEstablished
          && p.ChatSend? && p.name in s.registry && s.registry[p.name].stream.Some?)
    || (code == 0x03 && e.ok && phase == StHello
          && p.Hello? && !exists v :: 0 <= v < 8 && v < p.numVersions && p.versions[v] == 1)
    || (code == 0x04 && e.ok
          && ((p.Hello? && phase != StHello) || (p.AuthReq? && phase != StAuth)
              || ((p.KeyReq? || p.ChatSend?) && phase != StEstablished)))
  }

  ghost predicate SendsError(s: Server, e: Event, code: byte)
    requires Enabled(s, e)
  {
    exists x :: x in Next(s, e).sends && x.pkt.Error? && x.pkt.code == code
  }

  lemma HelloErrors(s: Server, e: Event, code: byte)
    requires Enabled(s, e) && e.EvRecv? && e.pkt.Hello?
    ensures SendsError(s, e, code) <==> Cause(s, e, code)
  {
    hide Text;
    var sends := Next(s, e).sends;
    if Cause(s, e, code) {
      assert sends[0] in sends;
    }
  }

  lemma AuthReqErrors(s: Server, e: Event, code: byte)
    requires Enabled(s, e) && e.EvRecv? && e.pkt.AuthReq?
    ensures SendsError(s, e, code) <==> Cause(s, e, code)
  {
    hide Text;
    var sends := Next(s, e).sends;
    if Cause(s, e, code) {
      assert sends[0] in sends;
    }
  }

  lemma KeyReqErrors(s: Server, e: Event, code: byte)
    requires Enabled(s, e) && e.EvRecv? && e.pkt.KeyReq?
    ensures SendsError(s, e, code) <==> Cause(s, e, code)
  {
    hide Text;
    var sends := Next(s, e).sends;
    if Cause(s, e, code) {
      assert sends[0] in sends;
    }
  }

  lemma ChatErrors(s: Server, e: Event, code: byte)
    requires Enabled(s, e) && e.EvRecv? && e.pkt.ChatSend?
    ensures SendsError(s, e, code) <==> Cause(s, e, code)
  {
    hide Text;
    var sends := Next(s, e).sends;
    if Cause(s, e, code) {
      assert sends[0] in sends;
    }
  }

  /** An ERROR of each code is sent exactly for its cause, whatever the handler, and only in answer to a packet. */
  lemma ErrorsMean(s: Server, e: Event, code: byte)
    requires HeadOk(s) && Enabled(s, e)
    ensures SendsError(s, e, code) <==> e.EvRecv? && Cause(s, e, code)
  {
    if e.EvWork? {
      WorkerAnswers(s, e);
    } else if e.EvRecv? {
      hide Text, OnHello, OnAuthReq, OnKeyReq, OnChatSend, OnBye;
      match e.pkt
      case Hello(_, _, _) => HelloErrors(s, e, code);
      case AuthReq(_, _, _, _, _) => AuthReqErrors(s, e, code);
      case KeyReq(_, _) => KeyReqErrors(s, e, code);
      case ChatSend(_, _, _, _, _, _) => ChatErrors(s, e, code);
      case _ =>
    }
  }

  /** The packet is a HELLO in HELLO that offers no version 1. */
  ghost predicate WrongVersion(s: Server, e: Event)
    requires Enabled(s, e) && e.EvRecv?
  {
    e.pkt.Hello? && s.sessions[e.sid].phase == StHello && !Greets(s, e, e.sid)
  }

  /** Anything but a forwarded chat goes back on the stream of the packet it answers; errors and BYEs bear the session's ID. */
  ghost predicate Addressed(s: Server, e: Event, sends: seq<Send>)
    requires Enabled(s, e) && e.EvRecv?
  {
    forall x | x in sends && !x.pkt.ChatDeliver? ::
      x.stream == e.stream && (x.pkt.Error? || x.pkt.Bye? ==> x.pkt.id == s.sessions[e.sid].id)
  }

  lemma HelloAnswers(s: Server, e: Event)
    requires Enabled(s, e) && e.EvRecv? && e.pkt.Hello?
    ensures var sends := Next(s, e).sends;
            && Addressed(s, e, sends)
            && (Greets(s, e, e.sid) ==> sends == if e.ok then [Send(e.stream, HelloAck(s.nextId, 1))] else [])
            && (forall x | x in sends && x.pkt.HelloAck? :: Greets(s, e, e.sid))
            && ((exists x :: x in sends && x.pkt.Bye?) <==> e.ok2 && WrongVersion(s, e))
            && |sends| <= if WrongVersion(s, e) then 2 else 1
  {
    hide Text;
    var sends := Next(s, e).sends;
    if e.ok2 && WrongVersion(s, e) {
      assert sends[|sends| - 1].pkt.Bye? && sends[|sends| - 1] in sends;
    }
  }

  /** How the other packets are answered when nothing is wrong, and that at most one packet is sent for each. */
  lemma RequestAnswers(s: Server, e: Event)
    requires Enabled(s, e) && e.EvRecv? && !e.pkt.Hello?
    ensures var sends := Next(s, e).sends; var p, ss := e.pkt, s.sessions[e.sid];
            && Addressed(s, e, sends) && |sends| <= 1
            && (p.KeyReq? && ss.phase == StEstablished && p.name in s.registry ==>
                  sends == if e.ok then [Send(e.stream, KeyResp(p.id, p.name, 32, s.registry[p.name].key))] else [])
            && (p.ChatSend? && ss.phase == StEstablished && p.name in s.registry && s.registry[p.name].stream.Some? && e.ok ==>
                  sends == [Send(s.registry[p.name].stream.value, Forward(p, ss.name))])
            && (p.AuthReq? && ss.phase == StAuth ==> sends == [])
            && (!p.AuthReq? && !p.KeyReq? && !p.ChatSend? ==> sends == [])
            && forall x | x in sends :: x.pkt.Error? || x.pkt.KeyResp? || x.pkt.ChatDeliver?
  {
    hide Text;
  }
}
