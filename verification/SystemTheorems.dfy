/** The guarantees of the composed system, for every run. */
module SystemTheorems {
  import opened Bytes
  import opened Wire
  import opened Phases
  import U = UsersFile
  import opened SystemSpec
  import opened SystemLinks
  import opened SystemProofs
  import opened SystemOrder
  import S = ServerSpec
  import SP = ServerProofs
  import C = ClientSpec
  import Crypto

  // ---------- the server inside the system ----------

  /** What the server sees of a step. */
  function ServerEvent(y: System, e: Event): Option<S.Event> {
    match e
    case Open(c, _) => Some(S.EvConnect(c))
    case Arrive(c, ok, ok2) =>
      if c in y.peers && y.peers[c].up != [] then Some(S.EvRecv(c, c, y.peers[c].up[0].pkt, ok, ok2)) else None
    case Work(junk, ok) => Some(S.EvWork(y.users, junk, ok))
    case CloseStream(c) => Some(S.EvStreamClosed(c))
    case Drop(c) => Some(S.EvDisconnect(c))
    case Stop(_) => Some(S.EvStop)
    case _ => None
  }

  lemma QueuedOnce(k: Crypto.Suite, y: System, c: nat)
    requires c in y.peers && y.peers[c].up != [] && y.peers[c].up[0].pkt.AuthReq?
    requires Inv(k, y)
    ensures !y.server.sessions[c].queued
  {
    hide SP.Inv, LogInv, CredOk, PhaseLink, RespLink, KeyLink, ChatLink, FetchLink, WfLink;
    assert Link(k, c, y.peers[c], y.server.sessions[c], y.history, y.replies);
    CountHas(y.peers[c].up, y.peers[c].up[0]);
  }

  /**
   The clients keep the contract the server relies on: each step is a step of the server that its own
   environment allows, in particular no AUTH_REQ arrives while one is waiting, or no step of it at all.
   */
  lemma StepProjects(k: Crypto.Suite, y: System, e: Event)
    requires Enabled(k, y, e)
    requires Inv(k, y)
    ensures ServerEvent(y, e).Some? ==>
              S.Enabled(y.server, ServerEvent(y, e).value)
              && Step(k, y, e).server == S.Next(y.server, ServerEvent(y, e).value).server
    ensures ServerEvent(y, e).None? ==> Step(k, y, e).server == y.server
  {
    hide SP.Inv, Link, LogInv, CredOk, Text, SystemSpec.Post, S.OnRecv, S.Work;
    if e.Arrive? && y.peers[e.c].up[0].pkt.AuthReq? {
      QueuedOnce(k, y, e.c);
    }
  }

  /** Over every run of the system, an entry survives until its own client's BYE or disconnect. */
  lemma {:induction false} LoginStays(k: Crypto.Suite, states: seq<System>, events: seq<Event>, i: nat, j: nat, n: seq<byte>)
    requires Crypto.Lawful(k) && Run(k, states, events) && i <= j < |states| && n in states[i].server.registry
    requires var owner := states[i].server.registry[n].owner;
             forall h | i <= h < j :: ServerEvent(states[h], events[h]).Some? ==>
               !SP.RemovesOwn(ServerEvent(states[h], events[h]).value, owner)
    ensures n in states[j].server.registry && states[j].server.registry[n] == states[i].server.registry[n]
    decreases j - i
  {
    hide SP.QueueInv, SP.LifeInv, SP.IdInv, SP.RegistryInv, Link, LogInv, CredOk, Step, Enabled;
    if i < j {
      RunInv(k, states, events, i);
      StepProjects(k, states[i], events[i]);
      if ServerEvent(states[i], events[i]).Some? {
        SP.StepEntry(states[i].server, ServerEvent(states[i], events[i]).value, n);
      }
      LoginStays(k, states, events, i + 1, j, n);
    }
  }

  // ---------- agreement ----------

  /**
   In every reachable state the client's phase is not ahead of its session's, and from AUTH on both hold the
   same session ID, whatever is in flight.
   */
  lemma ClientServerAgree(k: Crypto.Suite, states: seq<System>, events: seq<Event>, i: nat, c: nat)
    requires Crypto.Lawful(k) && Run(k, states, events) && i < |states| && c in states[i].peers
    ensures c in states[i].server.sessions
    ensures var cl := states[i].peers[c].cl; var ss := states[i].server.sessions[c];
            && cl.phase.Rank() <= ss.phase.Rank()
            && (cl.phase != StHello ==> cl.id == ss.id)
            && (cl.phase == StEstablished ==> cl.name == ss.name)
  {
    hide SP.Inv, LogInv, CredOk, Step, Enabled, AuthLink, RespLink, ChatLink, FetchLink, WfLink;
    RunInv(k, states, events, i);
    var y := states[i];
    assert Link(k, c, y.peers[c], y.server.sessions[c], y.history, y.replies);
  }

  lemma DeliverState(k: Crypto.Suite, y: System, c: nat)
    requires c in y.peers && y.peers[c].down != [] && y.peers[c].down[0].pkt.ChatDeliver?
    requires Inv(k, y)
    ensures y.peers[c].cl.phase == StEstablished <==> !y.server.sessions[c].respLost
  {
    hide SP.Inv, LogInv, CredOk, PhaseLink, AuthLink, KeyLink, ChatLink, FetchLink, WfLink;
    assert Link(k, c, y.peers[c], y.server.sessions[c], y.history, y.replies);
    assert y.peers[c].down[0] in y.peers[c].down;
  }

  /**
   A CHAT_DELIVER passes the client's state check exactly when the AUTH_RESP of its login was put on the
   stream: channels are FIFO, so nothing else can get a delivered chat dropped for state.
   */
  lemma DeliverPassesStateCheckIff(k: Crypto.Suite, states: seq<System>, events: seq<Event>, i: nat, c: nat)
    requires Crypto.Lawful(k) && Run(k, states, events) && i < |states| && c in states[i].peers
    requires CanTake(states[i].peers[c]) && states[i].peers[c].down[0].pkt.ChatDeliver?
    ensures c in states[i].server.sessions
    ensures C.OnChatDeliver(k, states[i].peers[c].cl, states[i].peers[c].down[0].pkt) != C.WrongState
       <==> !states[i].server.sessions[c].respLost
  {
    hide Step, Enabled, SP.Inv, Link, LogInv, CredOk;
    RunInv(k, states, events, i);
    DeliverState(k, states[i], c);
  }

  // ---------- the logs ----------

  lemma LogsGrow(k: Crypto.Suite, y: System, e: Event)
    requires Enabled(k, y, e)
    ensures y.history <= Step(k, y, e).history && y.replies <= Step(k, y, e).replies
  {
    hide SystemSpec.Post, S.OnRecv, S.Work, TakePeer;
  }

  lemma {:induction false} RunLogsGrow(k: Crypto.Suite, states: seq<System>, events: seq<Event>, i: nat, j: nat)
    requires Run(k, states, events) && i <= j < |states|
    ensures states[i].history <= states[j].history && states[i].replies <= states[j].replies
    decreases j - i
  {
    hide Step, Enabled;
    if i < j {
      LogsGrow(k, states[i], events[i]);
      RunLogsGrow(k, states, events, i + 1, j);
    }
  }

  lemma ReplyStep(k: Crypto.Suite, y: System, e: Event)
    requires Enabled(k, y, e) && |Step(k, y, e).replies| > |y.replies|
    ensures var r := Step(k, y, e).replies[|y.replies|];
            && |Step(k, y, e).replies| == |y.replies| + 1
            && r.name in y.server.registry
            && y.server.registry[r.name].key == r.key && y.server.registry[r.name].owner == r.login
  {
    hide SystemSpec.Post, S.OnRecv, S.Work, TakePeer;
  }

  /** Every key reply handed out the key that was registered under that name at that moment, and by whom. */
  lemma {:induction false} ReplyWasListed(k: Crypto.Suite, states: seq<System>, events: seq<Event>, j: nat, r: nat)
    returns (a: nat)
    requires Run(k, states, events) && j < |states| && r < |states[j].replies|
    ensures a < j && |states[a].replies| == r && |states[a + 1].replies| == r + 1
    ensures var x := states[j].replies[r];
            && x.name in states[a].server.registry
            && states[a].server.registry[x.name].key == x.key && states[a].server.registry[x.name].owner == x.login
  {
    hide Step, Enabled;
    if j == 0 {
      assert false;
    }
    LogsGrow(k, states[j - 1], events[j - 1]);
    if r < |states[j - 1].replies| {
      a := ReplyWasListed(k, states, events, j - 1, r);
    } else {
      ReplyStep(k, states[j - 1], events[j - 1]);
      a := j - 1;
    }
  }

  // ---------- end to end ----------

  /**
   What client `d` is about to see of the chat at the head of its channel: if the chat was sealed to this
   login's key and the login was answered, the sender's text, whole.
   */
  ghost predicate ShowsWhole(k: Crypto.Suite, y: System, d: nat, ok: bool)
    requires d in y.peers && d in y.server.sessions && CanTake(y.peers[d])
  {
    var t := y.peers[d].down[0].tag;
    && t < |y.history| && y.history[t].reply.Some? && y.history[t].reply.value < |y.replies|
    && (y.replies[y.history[t].reply.value].login == d && !y.server.sessions[d].respLost ==>
          TakePeer(k, y.peers[d], ok).shown
          == y.peers[d].shown + [Shown(t, C.Shows(y.history[t].senderName, y.history[t].text))])
  }

  /** Taking a delivered chat that was sealed to this login's key shows the sender's text, whole. */
  lemma TakeShows(k: Crypto.Suite, y: System, d: nat, ok: bool)
    requires Crypto.Lawful(k) && d in y.peers && d in y.server.sessions
    requires CanTake(y.peers[d]) && y.peers[d].down[0].pkt.ChatDeliver?
    requires Inv(k, y)
    ensures ShowsWhole(k, y, d, ok)
  {
    hide SP.Inv, CredOk, PhaseLink, AuthLink, RespLink, KeyLink, FetchLink, WfLink;
    var p := y.peers[d];
    var f := p.down[0];
    assert Link(k, d, p, y.server.sessions[d], y.history, y.replies);
    assert f in p.down;
    var m := y.history[f.tag];
    assert MessageOk(k, y.peers, y.replies, m);
    var r := y.replies[m.reply.value];
    assert ReplyOk(k, y.peers, r);
    if r.login == d && !y.server.sessions[d].respLost {
      DeliverState(k, y, d);
      Crypto.DecryptEncrypt(k, p.cl.priv, m.eph, m.nonce, m.text);
    }
  }

  lemma {:induction false} DownTagsHas(fs: seq<Flight>, f: Flight)
    requires f in fs && f.pkt.ChatDeliver?
    ensures f.tag in DownTags(fs)
  {
    if fs[0] != f {
      DownTagsHas(fs[1..], f);
    }
  }

  // ---------- lines only grow ----------

  lemma PostGrows(peers: map<nat, Peer>, x: S.Send, tag: nat, c: nat)
    requires c in peers
    ensures Line(peers[c]) <= Line(PostOne(peers, x, tag)[c])
  {
    LinePush(peers[c], Flight(x.pkt, tag));
  }

  lemma {:induction false} PostAllGrows(peers: map<nat, Peer>, sends: seq<S.Send>, tag: nat, c: nat)
    requires c in peers
    ensures Line(peers[c]) <= Line(Post(peers, sends, tag)[c])
    decreases |sends|
  {
    hide Line;
    if sends != [] {
      PostGrows(peers, sends[0], tag, c);
      PostAllGrows(PostOne(peers, sends[0], tag), sends[1..], tag, c);
    }
  }

  lemma StepLine(k: Crypto.Suite, y: System, e: Event, c: nat)
    requires Enabled(k, y, e) && c in y.peers
    ensures c in Step(k, y, e).peers && Line(y.peers[c]) <= Line(Step(k, y, e).peers[c])
  {
    hide Line, SystemSpec.Post, S.OnRecv, S.Work, TakePeer, OnAir;
    var y' := Step(k, y, e);
    match e
    case Arrive(d, ok, ok2) =>
      var p := y.peers[d];
      var p1 := p.(up := p.up[1..]);
      LineUp(p, p1);
      PostAllGrows(y.peers[d := p1], S.OnRecv(y.server, d, d, p.up[0].pkt, ok, ok2).sends,
                   if p.up[0].pkt.KeyReq? then |y.replies| else p.up[0].tag, c);
    case Work(junk, ok) => PostAllGrows(y.peers, S.Work(y.server, y.users, junk, ok).sends, 0, c);
    case Stop(lost) => LinePush(y.peers[c], Flight(Bye(0), 0));
    case Take(d, ok) => TakeLine(k, y.peers[d], ok);
    case _ =>
      LineUp(y.peers[c], y'.peers[c]);
  }

  lemma {:induction false} RunLine(k: Crypto.Suite, states: seq<System>, events: seq<Event>, i: nat, j: nat, c: nat)
    requires Run(k, states, events) && i <= j < |states| && c in states[i].peers
    ensures c in states[j].peers && Line(states[i].peers[c]) <= Line(states[j].peers[c])
    decreases j - i
  {
    hide Line, Step, Enabled;
    if i < j {
      StepLine(k, states[i], events[i], c);
      RunLine(k, states, events, i + 1, j, c);
    }
  }

  /** What the server forwards at step w is in the line of the login listed under the recipient's name. */
  lemma ForwardedTo(k: Crypto.Suite, y: System, s: nat, ok2: bool) returns (d: nat)
    requires WillForward(y, s) && S.Live(y.server, s)
    requires Inv(k, y)
    ensures WellFormed(y.peers[s].up[0].pkt)
    ensures var t := y.peers[s].up[0].tag;
            && t < |y.history| && y.history[t].sender == s && y.history[t].pkt == y.peers[s].up[0].pkt
            && d == y.server.registry[y.peers[s].up[0].pkt.name].owner
            && d in ArriveStep(y, s, true, ok2).peers
            && t in Line(ArriveStep(y, s, true, ok2).peers[d])
  {
    hide Inv, ArriveStep, Line;
    var g;
    d, g := ChatForwarded(k, y, s, ok2);
    var p1 := y.peers[s].(up := y.peers[s].up[1..]);
    LinePush(if d == s then p1 else y.peers[d], g);
  }

  /** Step w of the run: the server forwards message t of client s. */
  ghost predicate Forwards(states: seq<System>, events: seq<Event>, w: nat, s: nat, t: nat) {
    && w < |events| && |states| == |events| + 1
    && events[w].Arrive? && events[w].c == s && events[w].ok && WillForward(states[w], s) && states[w].peers[s].up[0].tag == t
  }

  /** Step x of the run: client d takes the delivery of message t. */
  ghost predicate Takes(states: seq<System>, events: seq<Event>, x: nat, d: nat, t: nat) {
    && x < |events| && |states| == |events| + 1
    && events[x].Take? && events[x].c == d && d in states[x].peers && states[x].peers[d].down != []
    && states[x].peers[d].down[0].pkt.ChatDeliver? && states[x].peers[d].down[0].tag == t
  }

  /**
   A delivered message is taken by the client it was forwarded to, and by nobody else.
   */
  lemma DeliveredToOwner(k: Crypto.Suite, states: seq<System>, events: seq<Event>, w: nat, x: nat, s: nat, d: nat, t: nat)
    requires Crypto.Lawful(k) && Run(k, states, events) && w < x
    requires Forwards(states, events, w, s, t) && Takes(states, events, x, d, t)
    ensures t < |states[w].history| && states[w].history[t].sender == s
    ensures var n := states[w].history[t].recipient;
            n in states[w].server.registry && states[w].server.registry[n].owner == d
  {
    hide SP.Inv, Link, CredOk, Line, Step;
    RunInv(k, states, events, w);
    var owner := ForwardedTo(k, states[w], s, events[w].ok2);
    assert states[w + 1] == ArriveStep(states[w], s, true, events[w].ok2) by { StepIsArrive(k, states, events, w); }
    MessageName(k, states[w], t);
    RunLine(k, states, events, w + 1, x, owner);
    RunOrder(k, states, events, x);
    LineHas(states[x].peers[d]);
    assert d != owner ==> Apart(Line(states[x].peers[d]), Line(states[x].peers[owner]));
  }

  lemma StepIsArrive(k: Crypto.Suite, states: seq<System>, events: seq<Event>, w: nat)
    requires Run(k, states, events) && w < |events| && events[w].Arrive?
    ensures Enabled(k, states[w], events[w])
    ensures states[w + 1] == ArriveStep(states[w], events[w].c, events[w].ok, events[w].ok2)
  {
    hide ArriveStep;
  }

  lemma MessageName(k: Crypto.Suite, y: System, t: nat)
    requires t < |y.history|
    requires Inv(k, y)
    ensures y.history[t].pkt.ChatSend? && y.history[t].pkt.name == y.history[t].recipient
  {
    hide SP.Inv, Link, CredOk;
    assert MessageOk(k, y.peers, y.replies, y.history[t]);
  }

  lemma LineHas(p: Peer)
    requires p.down != [] && p.down[0].pkt.ChatDeliver?
    ensures p.down[0].tag in Line(p)
  {
    DownTagsHas(p.down, p.down[0]);
  }

  /**
   End-to-end integrity: if the login whose key the message was sealed with is still the one listed under the
   recipient's name when the server forwards it, then the client that takes it is that login, and it shows
   exactly the sender's name and text.
   */
  lemma EndToEnd(k: Crypto.Suite, states: seq<System>, events: seq<Event>, w: nat, x: nat, s: nat, d: nat, t: nat)
    requires Crypto.Lawful(k) && Run(k, states, events) && w < x
    requires Forwards(states, events, w, s, t) && Takes(states, events, x, d, t)
    requires t < |states[w].history| && states[w].history[t].reply.Some?
    requires states[w].history[t].reply.value < |states[w].replies|
    requires var m := states[w].history[t];
             m.recipient in states[w].server.registry
             && states[w].server.registry[m.recipient].owner == states[w].replies[m.reply.value].login
    requires d in states[x].server.sessions && !states[x].server.sessions[d].respLost
    ensures var m := states[w].history[t];
            && d == states[w].replies[m.reply.value].login
            && states[x + 1].peers.Keys == states[x].peers.Keys
            && states[x + 1].peers[d].shown == states[x].peers[d].shown + [Shown(t, C.Shows(m.senderName, m.text))]
  {
    hide Inv, Link, Line, ArriveStep, WorkStep, TellStep, TakePeer, StopStep, SystemSpec.Post, WillForward;
    DeliveredToOwner(k, states, events, w, x, s, d, t);
    RunLogsGrow(k, states, events, w, x);
    RunInv(k, states, events, x);
    TakeShows(k, states[x], d, events[x].ok);
  }

  /**
   The same from the moment of the key reply: a message for the recipient it was asked for arrives intact if
   that login neither says BYE nor disconnects between the reply (step a) and the forwarding (step w).
   */
  lemma EndToEndFromReply(k: Crypto.Suite, states: seq<System>, events: seq<Event>, w: nat, x: nat, s: nat, d: nat, t: nat)
    returns (a: nat)
    requires Crypto.Lawful(k) && Run(k, states, events) && w < x
    requires Forwards(states, events, w, s, t) && Takes(states, events, x, d, t)
    requires t < |states[w].history| && states[w].history[t].reply.Some?
    requires states[w].history[t].reply.value < |states[w].replies|
    requires states[w].replies[states[w].history[t].reply.value].name == states[w].history[t].recipient
    requires d in states[x].server.sessions && !states[x].server.sessions[d].respLost
    ensures a < w && |states[a].replies| == states[w].history[t].reply.value
    ensures var m := states[w].history[t];
            var login := states[w].replies[m.reply.value].login;
            (forall h | a <= h < w :: ServerEvent(states[h], events[h]).Some? ==>
               !SP.RemovesOwn(ServerEvent(states[h], events[h]).value, login))
            ==> d == login
                && states[x + 1].peers.Keys == states[x].peers.Keys
                && states[x + 1].peers[d].shown == states[x].peers[d].shown + [Shown(t, C.Shows(m.senderName, m.text))]
  {
    hide Step, Enabled, WillForward, SP.RemovesOwn, ServerEvent;
    var m := states[w].history[t];
    var login := states[w].replies[m.reply.value].login;
    a := ReplyWasListed(k, states, events, w, m.reply.value);
    if forall h | a <= h < w :: ServerEvent(states[h], events[h]).Some? ==>
         !SP.RemovesOwn(ServerEvent(states[h], events[h]).value, login)
    {
      LoginStays(k, states, events, a, w, m.recipient);
      EndToEnd(k, states, events, w, x, s, d, t);
    }
  }

  // ---------- order ----------

  /**
   At most once and in order: what a client has been shown are sent messages, each once, those of one sender
   in the order they were sent; and no message is shown to two clients.
   */
  lemma ShownOnceInOrder(k: Crypto.Suite, states: seq<System>, events: seq<Event>, i: nat, d: nat)
    requires Crypto.Lawful(k) && Run(k, states, events) && i < |states| && d in states[i].peers
    ensures var shown := states[i].peers[d].shown; var history := states[i].history;
            && (forall a | 0 <= a < |shown| :: shown[a].tag < |history|)
            && (forall a, b | 0 <= a < b < |shown| :: shown[a].tag != shown[b].tag
                  && (history[shown[a].tag].sender == history[shown[b].tag].sender ==> shown[a].tag < shown[b].tag))
    ensures forall e | e in states[i].peers && e != d ::
              forall a, b | 0 <= a < |states[i].peers[d].shown| && 0 <= b < |states[i].peers[e].shown| ::
                states[i].peers[d].shown[a].tag != states[i].peers[e].shown[b].tag
  {
    hide Step, Enabled;
    RunOrder(k, states, events, i);
    var y := states[i];
    var shown := y.peers[d].shown;
    assert Ordered(Line(y.peers[d]), y.history);
    assert forall a | 0 <= a < |shown| :: Line(y.peers[d])[a] == shown[a].tag;
    forall e, a, b | e in y.peers && e != d && 0 <= a < |shown| && 0 <= b < |y.peers[e].shown|
      ensures shown[a].tag != y.peers[e].shown[b].tag
    {
      var mine, other := Line(y.peers[d]), Line(y.peers[e]);
      assert Apart(mine, other);
      assert mine[a] == shown[a].tag && other[b] == y.peers[e].shown[b].tag;
      assert mine[a] in mine && other[b] in other;
    }
  }

  // ---------- credentials and bytes ----------

  /**
   Everyone registered still verifies against the users file as it is now, whatever names the tool has been
   given since. `junk` is what digits that are not hexadecimal were decoded to when the worker admitted them.
   */
  lemma RegisteredUsersVerify(k: Crypto.Suite, states: seq<System>, events: seq<Event>, i: nat, n: seq<byte>)
    returns (junk: seq<byte>)
    requires Crypto.Lawful(k) && Run(k, states, events) && i < |states| && n in states[i].server.registry
    ensures var owner := states[i].server.registry[n].owner;
            && |junk| == HASH_LEN && owner in states[i].server.sessions
            && U.Verify(states[i].users, CString(n), states[i].server.sessions[owner].authHash, junk)
  {
    hide Step, Enabled, Link, LogInv, SP.QueueInv, SP.LifeInv, SP.IdInv, U.Verify, U.Fields;
    RunInv(k, states, events, i);
    var y := states[i];
    assert SP.Listed(y.server, n);
    var ss := y.server.sessions[y.server.registry[n].owner];
    assert CredOk(y.users, ss);
    junk :| |junk| == HASH_LEN && U.Verify(y.users, CString(ss.authName), ss.authHash, junk);
  }

  /** The requests the tool was given during the first `i` steps. */
  function Requests(events: seq<Event>, i: nat): seq<U.User>
    requires i <= |events|
  {
    if i == 0 then []
    else Requests(events, i - 1) + if events[i - 1].AddAccount? then [events[i - 1].u] else []
  }

  lemma UsersStep(k: Crypto.Suite, y: System, e: Event)
    requires Enabled(k, y, e)
    ensures Step(k, y, e).users ==
            if e.AddAccount? && U.AddUser(y.users, e.u.name, e.u.hash).Some? then U.AddUser(y.users, e.u.name, e.u.hash).value
            else y.users
  {
    hide SystemSpec.Post, S.OnRecv, S.Work, TakePeer, U.AddUser;
  }

  lemma {:induction false} RunUsers(k: Crypto.Suite, states: seq<System>, events: seq<Event>, i: nat, before: seq<U.User>)
    requires Run(k, states, events) && i < |states| && states[0].users == U.AddAll([], before)
    ensures states[i].users == U.AddAll([], before + Requests(events, i))
  {
    hide Step, Enabled, U.AddUser;
    if i == 0 {
      assert before + [] == before;
    } else {
      RunUsers(k, states, events, i - 1, before);
      UsersStep(k, states[i - 1], events[i - 1]);
      var all := before + Requests(events, i);
      if events[i - 1].AddAccount? {
        assert all[..|all| - 1] == before + Requests(events, i - 1) && all[|all| - 1] == events[i - 1].u;
      } else {
        assert all == before + Requests(events, i - 1);
      }
    }
  }

  /** When the file was written by the tool alone and no name had a colon, they verify whatever `junk` is. */
  lemma RegisteredUsersAreInMap(k: Crypto.Suite, states: seq<System>, events: seq<Event>, i: nat, n: seq<byte>, before: seq<U.User>)
    requires Crypto.Lawful(k) && Run(k, states, events) && i < |states| && n in states[i].server.registry
    requires states[0].users == U.AddAll([], before)
    requires forall u | u in before + Requests(events, i) :: U.ColonFree(u)
    ensures var owner := states[i].server.registry[n].owner; var m := U.AddAllToMap(before + Requests(events, i));
            owner in states[i].server.sessions && CString(n) in m && m[CString(n)] == Some(states[i].server.sessions[owner].authHash)
  {
    hide Step, Enabled, U.Verify, U.AddAll, U.AddAllToMap;
    var junk := RegisteredUsersVerify(k, states, events, i, n);
    RunUsers(k, states, events, i, before);
    U.ColonFreeRefinesMap(before + Requests(events, i), CString(n), states[i].server.sessions[states[i].server.registry[n].owner].authHash, junk);
  }

  /** A name that is registered has no colon, no newline and no zero byte, and 1 to 32 bytes. */
  lemma ListedName(k: Crypto.Suite, y: System, n: seq<byte>)
    requires n in y.server.registry
    requires Inv(k, y)
    ensures U.COLON !in n && U.NL !in n && 0 !in n && 1 <= |n| <= USERNAME_MAX
  {
    hide SP.QueueInv, SP.LifeInv, SP.IdInv, LogInv, PhaseLink, AuthLink, RespLink, ChatLink, FetchLink, U.Verify, U.Terminated;
    assert SP.Listed(y.server, n);
    var owner := y.server.registry[n].owner;
    var ss := y.server.sessions[owner];
    assert Link(k, owner, y.peers[owner], ss, y.history, y.replies);
    assert CredOk(y.users, ss);
    var junk :| |junk| == HASH_LEN && U.Verify(y.users, CString(ss.authName), ss.authHash, junk);
    U.VerifiedName(y.users, CString(n), ss.authHash, junk);
  }

  /** Every packet in flight is well formed, so its bytes decode, after any split into buffers, to itself. */
  lemma InFlightDecodes(k: Crypto.Suite, states: seq<System>, events: seq<Event>, i: nat, c: nat, f: Flight, bufs: seq<seq<byte>>)
    requires Crypto.Lawful(k) && Run(k, states, events) && i < |states| && c in states[i].peers
    requires f in states[i].peers[c].up || f in states[i].peers[c].down
    requires WellFormed(f.pkt) ==> Concat(bufs) == Encode(f.pkt)
    ensures Complete(Concat(bufs)) && Decode(Concat(bufs)) == Some(f.pkt)
  {
    hide SP.Inv, LogInv, CredOk, Step, Enabled, PhaseLink, AuthLink, RespLink, KeyLink, ChatLink, FetchLink;
    RunInv(k, states, events, i);
    var y := states[i];
    assert Link(k, c, y.peers[c], y.server.sessions[c], y.history, y.replies);
    ReassemblyDispatch(f.pkt, bufs);
  }
}
