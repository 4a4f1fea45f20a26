/**
 The key wait of send_chat: what its semaphore counts, and exactly when the key it yields is the answer to the
 request just made.
 */
module SystemKeys {
  import opened Bytes
  import opened Wire
  import opened Phases
  import opened SystemSpec
  import opened SystemLinks
  import opened SystemProofs
  import opened SystemPaths
  import opened SystemAccounts
  import T = SystemTheorems
  import UsersFile
  import S = ServerSpec
  import SP = ServerProofs
  import C = ClientSpec
  import Crypto

  // ---------- what the semaphore counts ----------

  function KeySem(y: System, c: nat): nat {
    if c in y.peers then y.peers[c].cl.keySem else 0
  }

  /** In this step client `c` takes a KEY_RESP or a USER_NOT_FOUND. */
  predicate TakesAnswer(y: System, e: Event, c: nat) {
    e.Take? && e.c == c && c in y.peers && y.peers[c].down != [] && KindOf(y.peers[c].down[0].pkt) in {KKeyResp, KNotFound}
  }

  /** In this step client `c` comes back from a successful wait. */
  predicate Waits(e: Event, c: nat) {
    e.Tell? && e.c == c
  }

  function AnswersTaken(states: seq<System>, events: seq<Event>, i: nat, c: nat): nat
    requires i <= |events| <= |states|
  {
    if i == 0 then 0 else AnswersTaken(states, events, i - 1, c) + One(TakesAnswer(states[i - 1], events[i - 1], c))
  }

  function WaitsDone(events: seq<Event>, i: nat, c: nat): nat
    requires i <= |events|
  {
    if i == 0 then 0 else WaitsDone(events, i - 1, c) + One(Waits(events[i - 1], c))
  }

  lemma ArriveClients(y: System, d: nat, ok: bool, ok2: bool, c: nat)
    requires d in y.peers && d in y.server.sessions && y.peers[d].up != [] && WellFormed(y.peers[d].up[0].pkt)
    ensures var y' := ArriveStep(y, d, ok, ok2);
            y'.peers.Keys == y.peers.Keys && (c in y.peers ==> y'.peers[c].cl == y.peers[c].cl)
  {
    hide SystemSpec.Post, S.OnRecv;
    var p := y.peers[d];
    if c in y.peers {
      PostKeeps(y.peers[d := p.(up := p.up[1..])], S.OnRecv(y.server, d, d, p.up[0].pkt, ok, ok2).sends,
                if p.up[0].pkt.KeyReq? then |y.replies| else p.up[0].tag, c);
    }
  }

  lemma WorkClients(y: System, junk: seq<byte>, ok: bool, c: nat)
    requires y.server.queue != [] && |junk| == HASH_LEN
    ensures var y' := WorkStep(y, junk, ok);
            y'.peers.Keys == y.peers.Keys && (c in y.peers ==> y'.peers[c].cl == y.peers[c].cl)
  {
    hide SystemSpec.Post, S.Work;
    if c in y.peers {
      PostKeeps(y.peers, S.Work(y.server, y.users, junk, ok).sends, 0, c);
    }
  }

  lemma TakeSem(k: Crypto.Suite, p: Peer, ok: bool)
    requires CanTake(p)
    ensures TakePeer(k, p, ok).cl.keySem == p.cl.keySem + One(KindOf(p.down[0].pkt) in {KKeyResp, KNotFound})
  {
    hide Crypto.Decrypt, Zeros;
  }

  lemma KeySemStep(k: Crypto.Suite, y: System, e: Event, c: nat)
    requires Enabled(k, y, e)
    ensures KeySem(Step(k, y, e), c) + One(Waits(e, c)) == KeySem(y, c) + One(TakesAnswer(y, e, c))
  {
    hide ArriveStep, WorkStep, TakePeer, OnAir, Crypto.Encrypt, Zeros;
    match e
    case Take(d, ok) => TakeSem(k, y.peers[d], ok);
    case Arrive(d, ok, ok2) => ArriveClients(y, d, ok, ok2, c);
    case Work(junk, ok) => WorkClients(y, junk, ok, c);
    case _ =>
  }

  /**
   Over every run the semaphore is the number of KEY_RESP and USER_NOT_FOUND packets the client has taken minus
   the number of its successful waits.
   */
  lemma {:induction false} KeySemaphoreAccount(k: Crypto.Suite, states: seq<System>, events: seq<Event>, i: nat, c: nat)
    requires Run(k, states, events) && i < |states|
    ensures KeySem(states[i], c) + WaitsDone(events, i, c) == AnswersTaken(states, events, i, c)
  {
    hide Step, Enabled, TakesAnswer, Waits;
    if i > 0 {
      KeySemaphoreAccount(k, states, events, i - 1, c);
      KeySemStep(k, states[i - 1], events[i - 1], c);
    }
  }

  /** No wait of `c` has failed and none of its chats was answered USER_NOT_FOUND. */
  ghost predicate Clean(y: System, c: nat)
    requires c in y.peers && c in y.server.sessions
  {
    !y.peers[c].cl.waitFailed && !y.server.sessions[c].chatRefused
  }

  /** In such runs nothing is owed at the prompt: the semaphore is zero and no request or answer is in flight. */
  lemma CleanAtPrompt(k: Crypto.Suite, states: seq<System>, events: seq<Event>, i: nat, c: nat)
    requires Crypto.Lawful(k) && Run(k, states, events) && i < |states| && c in states[i].peers
    ensures c in states[i].server.sessions
    ensures Clean(states[i], c) && !states[i].peers[c].cl.pc.Fetching? ==> Owed(states[i].peers[c]) == 0
    ensures Clean(states[i], c) ==> Owed(states[i].peers[c]) <= 1
  {
    hide SP.Inv, LogInv, CredOk, Step, Enabled, PhaseLink, AuthLink, RespLink, KeyLink, ChatLink, WfLink;
    RunInv(k, states, events, i);
    var y := states[i];
    assert Link(k, c, y.peers[c], y.server.sessions[c], y.history, y.replies);
  }

  // ---------- nothing stale ----------

  /** A BYE stands before place `j`. */
  predicate ByeBefore(up: seq<Flight>, j: nat) {
    exists i :: 0 <= i < j && i < |up| && up[i].pkt.Bye?
  }

  /** The server no longer answers this client's requests. */
  predicate Shut(y: System, c: nat) {
    !S.Live(y.server, c) || y.server.sessions[c].phase == StClosing
  }

  /** The request at place `j` of c's up channel can never be answered with a key. */
  predicate Hopeless(y: System, c: nat, j: nat)
    requires c in y.peers && j < |y.peers[c].up| && y.peers[c].up[j].pkt.KeyReq?
  {
    Shut(y, c) || ByeBefore(y.peers[c].up, j) || !Obtainable(y, y.peers[c].up[j].pkt.name)
  }

  /** Every request on its way up is for `recipient` or hopeless. */
  predicate NoForeign(y: System, c: nat, recipient: seq<byte>)
    requires c in y.peers
  {
    forall j | 0 <= j < |y.peers[c].up| && y.peers[c].up[j].pkt.KeyReq? ::
      y.peers[c].up[j].pkt.name == recipient || Hopeless(y, c, j)
  }

  /** No older request or answer can be taken for the answer to a request for `recipient` made now. */
  ghost predicate NothingStale(y: System, c: nat, recipient: seq<byte>)
    requires c in y.peers
  {
    && NoForeign(y, c, recipient)
    && (forall f | f in y.peers[c].down :: !f.pkt.KeyResp?)
    && !(y.peers[c].cl.keySem > 0 && y.peers[c].keyReply.Some?)
  }

  /** Owing nothing is more than is needed. */
  lemma NothingOwedNothingStale(y: System, c: nat, recipient: seq<byte>)
    requires c in y.peers && Owed(y.peers[c]) == 0
    ensures NothingStale(y, c, recipient)
  {
    hide Hopeless;
    NoneInFlight(y.peers[c].up, KKeyReq);
    NoneInFlight(y.peers[c].down, KKeyResp);
    forall j | 0 <= j < |y.peers[c].up|
      ensures !y.peers[c].up[j].pkt.KeyReq?
    {
      assert y.peers[c].up[j] in y.peers[c].up;
    }
  }

  // ---------- requests that stay hopeless ----------

  lemma SessionMoves(k: Crypto.Suite, y: System, e: Event, c: nat)
    requires Enabled(k, y, e) && c in y.server.sessions
    requires Inv(k, y)
    ensures c in Step(k, y, e).server.sessions && SP.Moves(y.server.sessions[c], Step(k, y, e).server.sessions[c])
  {
    hide SP.QueueInv, SP.LifeInv, SP.RegistryInv, SP.IdInv, SP.HeadOk, Link, LogInv, CredOk, UsersFile.Terminated, Step, S.Next, S.Enabled;
    SP.InvHead(y.server);
    T.StepProjects(k, y, e);
    if T.ServerEvent(y, e).Some? {
      SP.StepMoves(y.server, T.ServerEvent(y, e).value, c);
    }
  }

  /** While the client is in send_chat its up channel loses its head, or gains BYEs at its end. */
  lemma UpMoves(k: Crypto.Suite, y: System, e: Event, c: nat)
    requires Enabled(k, y, e) && c in y.peers && y.peers[c].cl.pc.Fetching? && !((e.Tell? || e.GiveUp?) && e.c == c)
    ensures c in Step(k, y, e).peers
    ensures var up, up' := y.peers[c].up, Step(k, y, e).peers[c].up;
            if e.Arrive? && e.c == c then up != [] && up' == up[1..]
            else up <= up' && forall j | |up| <= j < |up'| :: up'[j].pkt.Bye?
  {
    hide ArriveStep, WorkStep, OnAir, C.OnHelloAck, C.OnAuthResp, C.OnKeyResp, C.OnError, C.OnChatDeliver;
    match e
    case Arrive(d, ok, ok2) => ArriveUps(y, d, ok, ok2, c);
    case Work(junk, ok) => WorkUps(y, junk, ok, c);
    case _ =>
  }

  lemma ArriveUps(y: System, d: nat, ok: bool, ok2: bool, c: nat)
    requires d in y.peers && d in y.server.sessions && y.peers[d].up != [] && WellFormed(y.peers[d].up[0].pkt) && c in y.peers
    ensures var y' := ArriveStep(y, d, ok, ok2);
            c in y'.peers && y'.peers[c].up == if c == d then y.peers[c].up[1..] else y.peers[c].up
  {
    hide SystemSpec.Post, S.OnRecv;
    var p := y.peers[d];
    PostKeeps(y.peers[d := p.(up := p.up[1..])], S.OnRecv(y.server, d, d, p.up[0].pkt, ok, ok2).sends,
              if p.up[0].pkt.KeyReq? then |y.replies| else p.up[0].tag, c);
  }

  lemma WorkUps(y: System, junk: seq<byte>, ok: bool, c: nat)
    requires y.server.queue != [] && |junk| == HASH_LEN && c in y.peers
    ensures c in WorkStep(y, junk, ok).peers && WorkStep(y, junk, ok).peers[c].up == y.peers[c].up
  {
    hide SystemSpec.Post, S.Work;
    PostKeeps(y.peers, S.Work(y.server, y.users, junk, ok).sends, 0, c);
  }

  /** A BYE of a client past its login shuts it out. */
  lemma ByeShuts(k: Crypto.Suite, y: System, c: nat, ok: bool, ok2: bool)
    requires Enabled(k, y, Arrive(c, ok, ok2)) && y.peers[c].up[0].pkt.Bye? && y.server.sessions[c].phase.Rank() >= 3
    ensures Shut(Step(k, y, Arrive(c, ok, ok2)), c)
  {
    hide SystemSpec.Post, S.OnHello, S.OnAuthReq, S.OnKeyReq, S.OnChatSend;
  }

  lemma ShutStays(k: Crypto.Suite, y: System, e: Event, c: nat)
    requires Enabled(k, y, e) && c in y.server.sessions && Shut(y, c)
    requires Inv(k, y)
    ensures Shut(Step(k, y, e), c)
  {
    hide Inv, Step, Enabled;
    SessionMoves(k, y, e, c);
  }

  lemma ForeignStays(k: Crypto.Suite, y: System, e: Event, c: nat, recipient: seq<byte>)
    requires Crypto.Lawful(k) && Enabled(k, y, e) && c in y.peers && NoForeign(y, c, recipient)
    requires c in y.server.sessions && y.server.sessions[c].phase.Rank() >= 3
    requires y.peers[c].cl.pc.Fetching? && !((e.Tell? || e.GiveUp?) && e.c == c)
    requires Inv(k, y)
    ensures c in Step(k, y, e).peers && NoForeign(Step(k, y, e), c, recipient)
  {
    hide Inv, Step, Enabled, Shut, Obtainable, Crypto.Lawful;
    UpMoves(k, y, e, c);
    var y' := Step(k, y, e);
    var up, up' := y.peers[c].up, y'.peers[c].up;
    if Shut(y, c) {
      ShutStays(k, y, e, c);
    } else if e.Arrive? && e.c == c && up != [] && up[0].pkt.Bye? {
      ByeShuts(k, y, c, e.ok, e.ok2);
    } else {
      forall j | 0 <= j < |up'| && up'[j].pkt.KeyReq?
        ensures up'[j].pkt.name == recipient || Hopeless(y', c, j)
      {
        var i := if e.Arrive? && e.c == c then j + 1 else j;
        assert i < |up| && up'[j] == up[i];
        if up[i].pkt.name != recipient {
          assert Hopeless(y, c, i);
          if ByeBefore(up, i) {
            var b :| 0 <= b < i && b < |up| && up[b].pkt.Bye?;
            var b' := if e.Arrive? && e.c == c then b - 1 else b;
            assert up'[b'] == up[b];
            assert ByeBefore(up', j);
          } else {
            UnobtainableStays(k, y, e, up[i].pkt.name);
          }
        }
      }
    }
  }

  // ---------- answers that fit ----------

  /** Every key that can still be used answers the request of this call. */
  ghost predicate AnswersFit(p: Peer, replies: seq<Reply>) {
    && p.cl.pc.Fetching?
    && (forall f | f in p.down && f.pkt.KeyResp? :: ReplyFits(p, replies, f.tag))
    && (p.cl.keySem > 0 && p.keyReply.Some? ==> ReplyFits(p, replies, p.keyReply.value))
  }

  lemma {:induction false} PostGains(peers: map<nat, Peer>, sends: seq<S.Send>, tag: nat, c: nat)
    requires c in peers
    ensures forall f | f in Post(peers, sends, tag)[c].down ::
              f in peers[c].down || (f.tag == tag && S.Send(c, f.pkt) in sends)
    decreases |sends|
  {
    if sends != [] {
      PostGains(PostOne(peers, sends[0], tag), sends[1..], tag, c);
    }
  }

  lemma RecvKeyResp(s: S.Server, c: nat, p: Packet, ok: bool, ok2: bool, x: S.Send)
    requires c in s.sessions && WellFormed(p) && x in S.OnRecv(s, c, c, p, ok, ok2).sends && x.pkt.KeyResp?
    ensures p.KeyReq? && p.name in s.registry && x.stream == c && x.pkt.name == p.name && s.sessions[c].phase == StEstablished
    ensures S.OnRecv(s, c, c, p, ok, ok2).sends == [x]
  {
    hide Text, S.OffersV1;
  }

  /** A client that took nothing: its channels lost packets or gained harmless ones. */
  lemma AnswersFrame(p: Peer, p': Peer, replies: seq<Reply>, replies': seq<Reply>)
    requires AnswersFit(p, replies) && replies <= replies' && p' == p.(up := p'.up, down := p'.down, shown := p'.shown)
    requires forall f | f in p'.down && f.pkt.KeyResp? :: f in p.down || ReplyFits(p, replies', f.tag)
    ensures AnswersFit(p', replies')
  {
  }

  lemma ArriveFits(k: Crypto.Suite, y: System, d: nat, ok: bool, ok2: bool, c: nat)
    requires Enabled(k, y, Arrive(d, ok, ok2)) && c in y.peers && AnswersFit(y.peers[c], y.replies)
    requires y.peers[c].asked <= |y.replies| && NoForeign(y, c, y.peers[c].cl.pc.recipient)
    ensures var y' := ArriveStep(y, d, ok, ok2);
            AnswersFit(y'.peers[c], y'.replies) && y'.peers[c].cl == y.peers[c].cl && y'.peers[c].asked == y.peers[c].asked
  {
    hide SystemSpec.Post, S.OnRecv, NoForeign;
    var p, q := y.peers[d], y.peers[d].up[0].pkt;
    var peers1 := y.peers[d := p.(up := p.up[1..])];
    var sends := S.OnRecv(y.server, d, d, q, ok, ok2).sends;
    var tag := if q.KeyReq? then |y.replies| else p.up[0].tag;
    PostKeeps(peers1, sends, tag, c);
    PostGains(peers1, sends, tag, c);
    var y' := ArriveStep(y, d, ok, ok2);
    forall f | f in y'.peers[c].down && f.pkt.KeyResp? && f !in y.peers[c].down
      ensures ReplyFits(y.peers[c], y'.replies, f.tag)
    {
      SendsTo(y, d, ok, ok2, S.Send(c, f.pkt));
      AnsweredIsOurs(y, c);
    }
    AnswersFrame(y.peers[c], y'.peers[c], y.replies, y'.replies);
  }

  /** A request that is being answered with a key was not hopeless. */
  lemma AnsweredIsOurs(y: System, c: nat)
    requires c in y.peers && y.peers[c].cl.pc.Fetching? && NoForeign(y, c, y.peers[c].cl.pc.recipient)
    requires y.peers[c].up != [] && y.peers[c].up[0].pkt.KeyReq?
    requires S.Live(y.server, c) && y.server.sessions[c].phase == StEstablished && y.peers[c].up[0].pkt.name in y.server.registry
    ensures y.peers[c].up[0].pkt.name == y.peers[c].cl.pc.recipient
  {
    assert !Hopeless(y, c, 0);
  }

  /** A KEY_RESP goes to the asker and is logged under the next number. */
  lemma SendsTo(y: System, d: nat, ok: bool, ok2: bool, x: S.Send)
    requires d in y.peers && d in y.server.sessions && y.peers[d].up != [] && WellFormed(y.peers[d].up[0].pkt)
    requires var q := y.peers[d].up[0].pkt; x in S.OnRecv(y.server, d, d, q, ok, ok2).sends && x.pkt.KeyResp?
    ensures var q := y.peers[d].up[0].pkt; var y' := ArriveStep(y, d, ok, ok2);
            && x.stream == d && q.KeyReq? && q.name in y.server.registry && y.server.sessions[d].phase == StEstablished
            && y'.replies == y.replies + [Reply(d, q.name, y.server.registry[q.name].key, y.server.registry[q.name].owner)]
  {
    RecvKeyResp(y.server, d, y.peers[d].up[0].pkt, ok, ok2, x);
    hide SystemSpec.Post, S.OnRecv;
  }

  lemma TakeFits(k: Crypto.Suite, p: Peer, ok: bool, replies: seq<Reply>)
    requires AnswersFit(p, replies) && CanTake(p)
    ensures var p' := TakePeer(k, p, ok); AnswersFit(p', replies) && p'.cl.pc == p.cl.pc && p'.asked == p.asked
  {
    assert p.down[0] in p.down;
    assert forall f | f in p.down[1..] :: f in p.down;
  }

  lemma WorkFits(y: System, junk: seq<byte>, ok: bool, c: nat)
    requires y.server.queue != [] && |junk| == HASH_LEN && c in y.peers && AnswersFit(y.peers[c], y.replies)
    ensures var y' := WorkStep(y, junk, ok);
            AnswersFit(y'.peers[c], y'.replies) && y'.peers[c].cl == y.peers[c].cl && y'.peers[c].asked == y.peers[c].asked
  {
    var sends := S.Work(y.server, y.users, junk, ok).sends;
    assert forall x | x in sends :: !x.pkt.KeyResp? by { hide SystemSpec.Post, AnswersFit; }
    hide SystemSpec.Post, S.Work;
    PostKeeps(y.peers, sends, 0, c);
    PostGains(y.peers, sends, 0, c);
    AnswersFrame(y.peers[c], WorkStep(y, junk, ok).peers[c], y.replies, y.replies);
  }

  /** While the client stays in send_chat, every step of anyone keeps it so. */
  lemma FitStep(k: Crypto.Suite, y: System, e: Event, c: nat)
    requires Enabled(k, y, e) && c in y.peers && AnswersFit(y.peers[c], y.replies) && y.peers[c].asked <= |y.replies|
    requires NoForeign(y, c, y.peers[c].cl.pc.recipient) && !((e.Tell? || e.GiveUp?) && e.c == c)
    ensures var y' := Step(k, y, e);
            && c in y'.peers && AnswersFit(y'.peers[c], y'.replies) && y'.peers[c].asked <= |y'.replies|
            && y'.peers[c].cl.pc == y.peers[c].cl.pc && y'.peers[c].asked == y.peers[c].asked
  {
    hide ArriveStep, WorkStep, TakePeer, OnAir, AnswersFit, NoForeign;
    T.LogsGrow(k, y, e);
    InSendChat(y, c);
    var p := y.peers[c];
    match e
    case Arrive(d, ok, ok2) => ArriveFits(k, y, d, ok, ok2, c); ArriveClients(y, d, ok, ok2, c);
    case Work(junk, ok) => WorkFits(y, junk, ok, c); WorkClients(y, junk, ok, c);
    case Take(d, ok) => if d == c { TakeFits(k, p, ok, y.replies); }
    case Stop(lost) => AnswersFrame(p, Step(k, y, e).peers[c], y.replies, y.replies);
    case _ =>
  }

  lemma InSendChat(y: System, c: nat)
    requires c in y.peers && AnswersFit(y.peers[c], y.replies)
    ensures y.peers[c].cl.pc.Fetching?
  {
  }

  // ---------- the key is fresh ----------

  /** The path is one call of send_chat by `c` that ends with a message going out. */
  ghost predicate Fetch(k: Crypto.Suite, ys: seq<System>, es: seq<Event>, c: nat, recipient: seq<byte>, text: seq<byte>) {
    && Path(k, ys, es) && |es| >= 2
    && es[0].Ask? && es[0].c == c && es[0].recipient == recipient && es[0].text == text
    && es[|es| - 1].Tell? && es[|es| - 1].c == c
    && (forall h | 0 < h < |es| :: c in ys[h].peers && ys[h].peers[c].cl.pc.Fetching?)
    && |ys[|es|].history| == |ys[|es| - 1].history| + 1
  }

  /** The last message was sealed with a key that was given after it was asked for, for its recipient. */
  ghost predicate Fresh(y: System) {
    && y.history != []
    && var m := y.history[|y.history| - 1];
       m.reply.Some? && m.asked <= m.reply.value < |y.replies|
       && y.replies[m.reply.value] == Reply(m.sender, m.recipient, m.key, y.replies[m.reply.value].login)
  }

  /** The last message is the one that this call of send_chat was for. */
  ghost predicate IsFor(y: System, c: nat, recipient: seq<byte>, text: seq<byte>, asked: nat) {
    && y.history != []
    && var m := y.history[|y.history| - 1];
       m.sender == c && m.recipient == recipient && m.text == text && m.asked == asked
  }

  lemma TellMakes(k: Crypto.Suite, y: System, e: Event, c: nat)
    requires Enabled(k, y, e) && e.Tell? && e.c == c && |Step(k, y, e).history| == |y.history| + 1
    ensures y.peers[c].cl.pc.Fetching? && y.peers[c].cl.keySem > 0 && y.peers[c].cl.keyResult != Zeros(KEY_LEN)
    ensures var p, y' := y.peers[c], Step(k, y, e);
            && y'.replies == y.replies && IsFor(y', c, p.cl.pc.recipient, p.cl.pc.text, p.asked)
            && var m := y'.history[|y'.history| - 1]; m.reply == p.keyReply && m.key == p.cl.keyResult
  {
    hide Crypto.Encrypt;
  }

  lemma KeyReplyIs(k: Crypto.Suite, y: System, c: nat)
    requires c in y.peers
    requires Inv(k, y)
    ensures var p := y.peers[c];
            && p.asked <= |y.replies|
            && (p.keyReply.None? ==> p.cl.keyResult == Zeros(KEY_LEN))
            && (p.keyReply.Some? ==> p.keyReply.value < |y.replies| && y.replies[p.keyReply.value].asker == c
                                     && y.replies[p.keyReply.value].key == p.cl.keyResult)
  {
    hide SP.Inv, LogInv, CredOk, PhaseLink, AuthLink, RespLink, KeyLink, ChatLink, WfLink;
    assert Link(k, c, y.peers[c], y.server.sessions[c], y.history, y.replies);
  }

  /** What is kept from the request to the message. */
  ghost predicate OnTrack(y: System, c: nat, recipient: seq<byte>, text: seq<byte>, asked: nat) {
    && c in y.peers && AnswersFit(y.peers[c], y.replies) && NoForeign(y, c, recipient)
    && y.peers[c].asked == asked <= |y.replies| && y.peers[c].cl.pc == C.Fetching(recipient, text)
    && PastLogin(y, c)
  }

  predicate PastLogin(y: System, c: nat) {
    c in y.server.sessions && y.server.sessions[c].phase.Rank() >= 3
  }

  lemma TrackStep(k: Crypto.Suite, y: System, e: Event, c: nat, recipient: seq<byte>, text: seq<byte>, asked: nat)
    requires Crypto.Lawful(k) && Enabled(k, y, e) && OnTrack(y, c, recipient, text, asked) && !((e.Tell? || e.GiveUp?) && e.c == c)
    requires Inv(k, y)
    ensures OnTrack(Step(k, y, e), c, recipient, text, asked)
  {
    hide Inv, Step, Enabled, AnswersFit, NoForeign, Crypto.Lawful;
    FitStep(k, y, e, c);
    ForeignStays(k, y, e, c, recipient);
    SessionMoves(k, y, e, c);
  }

  lemma {:induction false} FetchTracks(k: Crypto.Suite, ys: seq<System>, es: seq<Event>, c: nat, recipient: seq<byte>, text: seq<byte>, h: nat)
    requires Crypto.Lawful(k) && Fetch(k, ys, es, c, recipient, text) && 0 < h < |es|
    requires c in ys[0].peers && NothingStale(ys[0], c, recipient) && PastLogin(ys[0], c)
    requires Inv(k, ys[0])
    ensures OnTrack(ys[h], c, recipient, text, |ys[0].replies|)
  {
    hide Inv, OnTrack, NothingStale, PastLogin, Step, Enabled, Crypto.Lawful;
    if h == 1 {
      FirstTracks(k, ys[0], es[0], c);
    } else {
      assert c in ys[h].peers && ys[h].peers[c].cl.pc.Fetching?;
      FetchTracks(k, ys, es, c, recipient, text, h - 1);
      NotYetOut(k, ys[h - 1], es[h - 1], c);
      PathKeeps(k, ys, es, h - 1);
      TrackStep(k, ys[h - 1], es[h - 1], c, recipient, text, |ys[0].replies|);
    }
  }

  lemma FirstTracks(k: Crypto.Suite, y: System, e: Event, c: nat)
    requires Enabled(k, y, e) && e.Ask? && e.c == c && c in y.peers && NothingStale(y, c, e.recipient) && PastLogin(y, c)
    ensures OnTrack(Step(k, y, e), c, e.recipient, e.text, |y.replies|)
  {
    hide UsersFile.Fields, Typable;
    var up, up' := y.peers[c].up, Step(k, y, e).peers[c].up;
    forall j | 0 <= j < |up'| && up'[j].pkt.KeyReq?
      ensures up'[j].pkt.name == e.recipient || Hopeless(Step(k, y, e), c, j)
    {
      if j < |up| {
        assert up'[j] == up[j];
        if ByeBefore(up, j) {
          var b :| 0 <= b < j && b < |up| && up[b].pkt.Bye?;
          assert up'[b] == up[b];
        }
      }
    }
  }

  lemma NotYetOut(k: Crypto.Suite, y: System, e: Event, c: nat)
    requires Enabled(k, y, e) && c in Step(k, y, e).peers && Step(k, y, e).peers[c].cl.pc.Fetching?
    ensures !((e.Tell? || e.GiveUp?) && e.c == c)
  {
  }

  /** From any state of the invariant in which nothing is stale, whatever failed before, the message is fresh. */
  lemma FreshAlongPath(k: Crypto.Suite, ys: seq<System>, es: seq<Event>, c: nat, recipient: seq<byte>, text: seq<byte>)
    requires Crypto.Lawful(k) && Fetch(k, ys, es, c, recipient, text) && c in ys[0].peers
    requires NothingStale(ys[0], c, recipient) && PastLogin(ys[0], c)
    requires Inv(k, ys[0])
    ensures Fresh(ys[|es|]) && IsFor(ys[|es|], c, recipient, text, |ys[0].replies|)
  {
    hide Inv, NothingStale, PastLogin, NoForeign, Step, Enabled, Crypto.Lawful;
    var h := |es| - 1;
    FetchTracks(k, ys, es, c, recipient, text, h);
    PathKeeps(k, ys, es, h);
    KeyReplyIs(k, ys[h], c);
    TellMakes(k, ys[h], es[h], c);
  }

  // ---------- in runs ----------

  /** A client that chats has been accepted. */
  predicate Accepted(y: System, c: nat) {
    c in y.peers ==>
      var cl := y.peers[c].cl;
      (cl.pc.Idle? || cl.pc.Fetching? ==> cl.authOk) && (cl.authOk ==> cl.phase == StEstablished)
  }

  lemma TakeAccepted(k: Crypto.Suite, p: Peer, ok: bool)
    requires CanTake(p) && (p.cl.authOk ==> p.cl.phase == StEstablished)
    ensures var cl := TakePeer(k, p, ok).cl;
            cl.pc == p.cl.pc && (p.cl.authOk ==> cl.authOk) && (cl.authOk ==> cl.phase == StEstablished)
  {
    hide C.OnChatDeliver, Zeros;
  }

  lemma AcceptedStep(k: Crypto.Suite, y: System, e: Event, c: nat)
    requires Enabled(k, y, e) && Accepted(y, c)
    ensures Accepted(Step(k, y, e), c)
  {
    hide ArriveStep, WorkStep, TakePeer, OnAir, Crypto.Encrypt, Zeros;
    match e
    case Take(d, ok) => if d == c { TakeAccepted(k, y.peers[d], ok); }
    case Arrive(d, ok, ok2) => ArriveClients(y, d, ok, ok2, c);
    case Work(junk, ok) => WorkClients(y, junk, ok, c);
    case _ =>
  }

  lemma {:induction false} RunAccepted(k: Crypto.Suite, states: seq<System>, events: seq<Event>, i: nat, c: nat)
    requires Run(k, states, events) && i < |states|
    ensures Accepted(states[i], c)
  {
    hide Step, Enabled;
    if i > 0 {
      hide Accepted;
      RunAccepted(k, states, events, i - 1, c);
      AcceptedStep(k, states[i - 1], events[i - 1], c);
    }
  }

  /** Whoever is at the prompt or in send_chat has a session that is past its login. */
  lemma ChatsPastLogin(k: Crypto.Suite, states: seq<System>, events: seq<Event>, i: nat, c: nat)
    requires Crypto.Lawful(k) && Run(k, states, events) && i < |states| && c in states[i].peers
    requires states[i].peers[c].cl.pc.Idle? || states[i].peers[c].cl.pc.Fetching?
    ensures PastLogin(states[i], c)
  {
    hide Step, Enabled;
    RunAccepted(k, states, events, i, c);
    T.ClientServerAgree(k, states, events, i, c);
  }

  /** In the run, client `c` enters send_chat at step `a`, stays in it, and its message goes out at step `i`. */
  predicate Sends(states: seq<System>, events: seq<Event>, a: nat, i: nat, c: nat) {
    && a < i < |events| && |states| == |events| + 1
    && events[a].Ask? && events[a].c == c && events[i].Tell? && events[i].c == c && c in states[a].peers
    && (forall h | a < h <= i :: c in states[h].peers && states[h].peers[c].cl.pc.Fetching?)
    && |states[i + 1].history| == |states[i].history| + 1
  }

  lemma FetchInRun(k: Crypto.Suite, states: seq<System>, events: seq<Event>, a: nat, i: nat, c: nat)
    requires Run(k, states, events) && Sends(states, events, a, i, c)
    ensures Fetch(k, states[a..i + 2], events[a..i + 1], c, events[a].recipient, events[a].text)
  {
    hide Step, Enabled;
    var ys, es := states[a..i + 2], events[a..i + 1];
    assert forall h | 0 <= h < |ys| :: ys[h] == states[a + h];
    assert forall h | 0 <= h < |es| :: es[h] == events[a + h];
  }

  /** What went out at step `i` is the message of this call, sealed with the key listed under its recipient at step `b`. */
  predicate SealedAt(states: seq<System>, events: seq<Event>, a: nat, i: nat, c: nat, b: nat)
    requires Sends(states, events, a, i, c) && b < i
  {
    var m := states[i + 1].history[|states[i].history|]; var n := events[a].recipient;
    && m.sender == c && m.recipient == n && m.text == events[a].text
    && n in states[b].server.registry && states[b].server.registry[n].key == m.key
  }

  /**
   In every run, when send_chat is entered at step `a` with nothing stale and its message goes out at step `i`, the
   key is the one listed under the named recipient at a step `b` in between, whatever failed or was refused before.
   */
  lemma FreshKeyUsed(k: Crypto.Suite, states: seq<System>, events: seq<Event>, a: nat, i: nat, c: nat) returns (b: nat)
    requires Crypto.Lawful(k) && Run(k, states, events) && Sends(states, events, a, i, c)
    requires NothingStale(states[a], c, events[a].recipient)
    ensures a <= b < i && SealedAt(states, events, a, i, c, b)
  {
    hide Step, Inv, NothingStale, PastLogin, Fetch;
    RunInv(k, states, events, a);
    FetchInRun(k, states, events, a, i, c);
    ChatsPastLogin(k, states, events, a, c);
    FreshAlongPath(k, states[a..i + 2], events[a..i + 1], c, events[a].recipient, events[a].text);
    var m := states[i + 1].history[|states[i].history|];
    b := T.ReplyWasListed(k, states, events, i + 1, m.reply.value);
    if b < a {
      T.RunLogsGrow(k, states, events, b + 1, a);
      assert false;
    }
    T.RunLogsGrow(k, states, events, i, i + 1);
    if b == i {
      TellMakes(k, states[i], events[i], c);
      assert false;
    }
  }

  /**
   In particular while no wait of the client has failed and none of its chats was refused: the key is the one listed
   under the named recipient during the call.
   */
  lemma CleanKeyUsed(k: Crypto.Suite, states: seq<System>, events: seq<Event>, a: nat, i: nat, c: nat) returns (b: nat)
    requires Crypto.Lawful(k) && Run(k, states, events) && Sends(states, events, a, i, c)
    requires c in states[a].server.sessions && Clean(states[a], c)
    ensures a <= b < i && SealedAt(states, events, a, i, c, b)
  {
    hide Step, Owed, NothingStale, SealedAt;
    CleanAtPrompt(k, states, events, a, c);
    NothingOwedNothingStale(states[a], c, events[a].recipient);
    b := FreshKeyUsed(k, states, events, a, i, c);
  }
}
