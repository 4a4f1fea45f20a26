/** Everything a user is ever shown, exactly. */
module SystemShown {
  import opened Bytes
  import opened Wire
  import opened Phases
  import opened SystemSpec
  import opened SystemLinks
  import opened SystemProofs
  import UsersFile
  import T = SystemTheorems
  import S = ServerSpec
  import SP = ServerProofs
  import SH = ServerHistory
  import C = ClientSpec
  import Crypto

  /** What client `p` with session `ss` is shown of message `m`: the text, whole, exactly if it holds the private half of the key used. */
  function Seen(k: Crypto.Suite, p: Peer, ss: S.Session, m: Message): C.Display {
    if ss.respLost then C.WrongState
    else if k.pub(p.cl.priv) == m.key then C.Shows(m.senderName, m.text)
    else C.DecryptFailed(m.senderName)
  }

  /** Every entry on the screen of `c` is what it must be; who has seen a chat is past its login. */
  ghost predicate ShownOk(k: Crypto.Suite, y: System, c: nat) {
    c in y.peers && y.peers[c].shown != [] ==>
      && c in y.server.sessions && y.server.sessions[c].phase.Rank() >= 3
      && forall a | 0 <= a < |y.peers[c].shown| ::
           var s := y.peers[c].shown[a];
           s.tag < |y.history| && s.what == Seen(k, y.peers[c], y.server.sessions[c], y.history[s.tag])
  }

  lemma LinkOf(k: Crypto.Suite, y: System, d: nat)
    requires d in y.peers
    requires Inv(k, y)
    ensures d in y.server.sessions && Link(k, d, y.peers[d], y.server.sessions[d], y.history, y.replies)
  {
    hide SP.Inv, Link, LogInv, CredOk;
  }

  ghost predicate Carries(k: Crypto.Suite, y: System, f: Flight)
    requires f.pkt.ChatDeliver? && WellFormed(f.pkt)
  {
    && f.tag < |y.history|
    && var m := y.history[f.tag];
       f.pkt.name == m.senderName && f.pkt.encKeyLen == 32 && f.pkt.encKey[..KEY_LEN] == k.pub(m.eph)
       && f.pkt.nonce == m.nonce && f.pkt.ct == Crypto.Encrypt(k, m.key, m.eph, m.nonce, m.text)
  }

  lemma HeadRank(p: Peer, ss: S.Session)
    requires RespLink(p, ss) && p.down != [] && p.down[0].pkt.ChatDeliver?
    ensures ss.phase.Rank() >= 3
  {
    hide HasOk;
  }

  lemma HeadLogged(d: nat, p: Peer, history: seq<Message>)
    requires ChatLink(d, p, history) && p.down != [] && p.down[0].pkt.ChatDeliver?
    ensures var f := p.down[0];
            && f.tag < |history| && history[f.tag].pkt.ChatSend?
            && f.pkt == Forward(history[f.tag].pkt, history[f.tag].senderName)
  {
    assert p.down[0] in p.down;
  }

  lemma LoggedOk(k: Crypto.Suite, y: System, t: nat)
    requires t < |y.history|
    requires Inv(k, y)
    ensures MessageOk(k, y.peers, y.replies, y.history[t])
  {
    hide SP.Inv, CredOk, Link, ReplyOk, MessageOk, UsersFile.Terminated;
  }

  /** What a chat at the head of the channel is: a logged message, addressed and sealed as logged. */
  lemma HeadIs(k: Crypto.Suite, y: System, d: nat)
    requires d in y.peers && CanTake(y.peers[d]) && y.peers[d].down[0].pkt.ChatDeliver?
    requires Inv(k, y)
    ensures d in y.server.sessions && y.server.sessions[d].phase.Rank() >= 3
    ensures Carries(k, y, y.peers[d].down[0])
  {
    hide Inv, PhaseLink, AuthLink, RespLink, KeyLink, ChatLink, FetchLink, WfLink, Crypto.Encrypt;
    LinkOf(k, y, d);
    HeadRank(y.peers[d], y.server.sessions[d]);
    HeadLogged(d, y.peers[d], y.history);
    LoggedOk(k, y, y.peers[d].down[0].tag);
  }

  /** The key of a logged message is the public half of some login's private key. */
  lemma KeyIsPublic(k: Crypto.Suite, y: System, t: nat) returns (priv: seq<byte>)
    requires t < |y.history|
    requires Inv(k, y)
    ensures y.history[t].key == k.pub(priv)
    ensures var m := y.history[t];
            && m.reply.Some? && m.reply.value < |y.replies| && y.replies[m.reply.value].login in y.peers
            && priv == y.peers[y.replies[m.reply.value].login].cl.priv
  {
    hide SP.Inv, CredOk, Link, Crypto.Encrypt, UsersFile.Terminated;
    var m := y.history[t];
    assert MessageOk(k, y.peers, y.replies, m);
    assert ReplyOk(k, y.peers, y.replies[m.reply.value]);
    priv := y.peers[y.replies[m.reply.value].login].cl.priv;
  }

  /** Taking a chat shows exactly what it must. */
  lemma TakeExact(k: Crypto.Suite, y: System, d: nat, ok: bool)
    requires Crypto.Lawful(k) && Crypto.Separating(k)
    requires d in y.peers && CanTake(y.peers[d]) && y.peers[d].down[0].pkt.ChatDeliver?
    requires Inv(k, y)
    ensures d in y.server.sessions && y.server.sessions[d].phase.Rank() >= 3 && y.peers[d].down[0].tag < |y.history|
    ensures var t := y.peers[d].down[0].tag;
            TakePeer(k, y.peers[d], ok).shown
            == y.peers[d].shown + [Shown(t, Seen(k, y.peers[d], y.server.sessions[d], y.history[t]))]
  {
    hide Inv, Crypto.Lawful, Crypto.Separating, Crypto.Encrypt, MessageOk;
    HeadIs(k, y, d);
    T.DeliverState(k, y, d);
    var f := y.peers[d].down[0];
    var m := y.history[f.tag];
    var priv := KeyIsPublic(k, y, f.tag);
    Crypto.OnlyRecipientOpens(k, priv, y.peers[d].cl.priv, m.eph, m.nonce, m.text);
    Crypto.Sizes(k, m.key, m.eph, m.nonce, m.text);
  }

  /** What a step does to a client that is past its login. */
  lemma Stays(k: Crypto.Suite, y: System, e: Event, c: nat)
    requires Enabled(k, y, e) && c in y.peers && c in y.server.sessions && y.server.sessions[c].phase.Rank() >= 3
    requires Inv(k, y)
    ensures var y' := Step(k, y, e);
            && c in y'.peers && c in y'.server.sessions && y'.server.sessions[c].phase.Rank() >= 3
            && y'.server.sessions[c].respLost == y.server.sessions[c].respLost
  {
    hide SP.QueueInv, SP.LifeInv, SP.RegistryInv, SP.IdInv, SP.HeadOk, Link, LogInv, CredOk, UsersFile.Terminated,
         Step, S.Next, S.Enabled, SH.Greets, SH.Requesting, UsersFile.Verify;
    SP.InvHead(y.server);
    T.StepProjects(k, y, e);
    StepLists(k, y, e, c);
    if T.ServerEvent(y, e).Some? {
      var se := T.ServerEvent(y, e).value;
      SH.StepPhase(y.server, se, c);
      HeadNotPast(y.server, c);
      SP.StepMoves(y.server, se, c);
    }
  }

  lemma HeadNotPast(s: S.Server, c: nat)
    requires SP.HeadOk(s) && c in s.sessions && s.sessions[c].phase.Rank() >= 3
    ensures s.queue == [] || s.queue[0] != c
  {
  }

  lemma TakeLists(k: Crypto.Suite, p: Peer, ok: bool)
    requires CanTake(p)
    ensures TakePeer(k, p, ok).cl.priv == p.cl.priv && (!p.down[0].pkt.ChatDeliver? ==> TakePeer(k, p, ok).shown == p.shown)
  {
    hide C.OnChatDeliver, Zeros;
  }

  /** Who is shown what: only by taking a chat, and a private key changes only at the login. */
  lemma StepLists(k: Crypto.Suite, y: System, e: Event, c: nat)
    requires Enabled(k, y, e) && c in y.peers
    ensures c in Step(k, y, e).peers
    ensures var p, p' := y.peers[c], Step(k, y, e).peers[c];
            && p'.shown == (if e.Take? && e.c == c && p.down[0].pkt.ChatDeliver? then TakePeer(k, p, e.ok).shown else p.shown)
            && (p'.cl.priv == p.cl.priv || (e.Login? && e.c == c))
  {
    hide ArriveStep, WorkStep, TakePeer, OnAir, Crypto.Encrypt, Zeros;
    match e
    case Take(d, ok) => if d == c { TakeLists(k, y.peers[c], ok); }
    case Arrive(d, ok, ok2) => ArriveShown(y, d, ok, ok2, c);
    case Work(junk, ok) => WorkShown(y, junk, ok, c);
    case _ =>
  }

  lemma ArriveShown(y: System, d: nat, ok: bool, ok2: bool, c: nat)
    requires d in y.peers && d in y.server.sessions && y.peers[d].up != [] && WellFormed(y.peers[d].up[0].pkt) && c in y.peers
    ensures var y' := ArriveStep(y, d, ok, ok2);
            c in y'.peers && y'.peers[c].shown == y.peers[c].shown && y'.peers[c].cl == y.peers[c].cl
  {
    hide SystemSpec.Post, S.OnRecv;
    var p := y.peers[d];
    PostKeeps(y.peers[d := p.(up := p.up[1..])], S.OnRecv(y.server, d, d, p.up[0].pkt, ok, ok2).sends,
              if p.up[0].pkt.KeyReq? then |y.replies| else p.up[0].tag, c);
  }

  lemma WorkShown(y: System, junk: seq<byte>, ok: bool, c: nat)
    requires y.server.queue != [] && |junk| == HASH_LEN && c in y.peers
    ensures var y' := WorkStep(y, junk, ok);
            c in y'.peers && y'.peers[c].shown == y.peers[c].shown && y'.peers[c].cl == y.peers[c].cl
  {
    hide SystemSpec.Post, S.Work;
    PostKeeps(y.peers, S.Work(y.server, y.users, junk, ok).sends, 0, c);
  }

  lemma NoLoginPast(k: Crypto.Suite, y: System, e: Event, c: nat)
    requires Enabled(k, y, e) && c in y.peers && c in y.server.sessions && y.server.sessions[c].phase.Rank() >= 3
    requires Inv(k, y)
    ensures !(e.Login? && e.c == c)
  {
    hide Inv, PhaseLink, AuthLink, RespLink, KeyLink, ChatLink, FetchLink, WfLink;
    LinkOf(k, y, c);
    WaitsBefore(y.peers[c], y.server.sessions[c]);
  }

  lemma WaitsBefore(p: Peer, ss: S.Session)
    requires AuthLink(p, ss)
    ensures p.cl.pc.WaitLogin? ==> ss.phase.Rank() <= 2
  {
  }

  lemma ShownStep(k: Crypto.Suite, y: System, e: Event, c: nat)
    requires Crypto.Lawful(k) && Crypto.Separating(k) && Enabled(k, y, e) && ShownOk(k, y, c)
    requires Inv(k, y)
    ensures ShownOk(k, Step(k, y, e), c)
  {
    hide Inv, Step, Enabled, TakePeer, Crypto.Lawful, Crypto.Separating;
    T.LogsGrow(k, y, e);
    if c in y.peers {
      StepLists(k, y, e, c);
      if e.Take? {
        TakeEnabled(k, y, e);
      }
      var takes := e.Take? && e.c == c && y.peers[c].down[0].pkt.ChatDeliver?;
      if takes {
        TakeExact(k, y, c, e.ok);
      }
      if takes || y.peers[c].shown != [] {
        Stays(k, y, e, c);
        NoLoginPast(k, y, e, c);
      }
    } else {
      NewcomerSawNothing(k, y, e, c);
    }
  }

  lemma TakeEnabled(k: Crypto.Suite, y: System, e: Event)
    requires Enabled(k, y, e) && e.Take?
    ensures e.c in y.peers && CanTake(y.peers[e.c])
  {
  }

  lemma NewcomerSawNothing(k: Crypto.Suite, y: System, e: Event, c: nat)
    requires Enabled(k, y, e) && c !in y.peers
    ensures c in Step(k, y, e).peers ==> Step(k, y, e).peers[c].shown == []
  {
    hide SystemSpec.Post, S.OnRecv, S.Work, TakePeer, OnAir, Crypto.Encrypt;
  }

  /**
   Over every run, every entry on every screen, exactly: the complaint about the state if the answer to that login was
   lost; else the sender's name and text, whole, if the client holds the private half of the key the message was sealed
   with; else "decrypt failed" under the sender's name. In particular no text is ever shown that was not sent.
   */
  lemma {:induction false} ShownExactly(k: Crypto.Suite, states: seq<System>, events: seq<Event>, i: nat, c: nat)
    requires Crypto.Lawful(k) && Crypto.Separating(k) && Run(k, states, events) && i < |states|
    ensures ShownOk(k, states[i], c)
  {
    hide Step, Enabled, Inv, ShownOk, Crypto.Lawful, Crypto.Separating;
    if i > 0 {
      ShownExactly(k, states, events, i - 1, c);
      RunInv(k, states, events, i - 1);
      ShownStep(k, states[i - 1], events[i - 1], c);
    } else {
      NothingShownYet(k, states, events, c);
    }
  }

  lemma NothingShownYet(k: Crypto.Suite, states: seq<System>, events: seq<Event>, c: nat)
    requires Run(k, states, events)
    ensures ShownOk(k, states[0], c)
  {
    hide Step, Enabled;
  }

  /**
   Who can read a message: in every run it is shown as text exactly to a client with the private half of the key that was
   given for its recipient, and every other client that takes it is told that decryption failed.
   */
  lemma ReadExactlyByKeyHolder(k: Crypto.Suite, states: seq<System>, events: seq<Event>, i: nat, c: nat, a: nat)
    requires Crypto.Lawful(k) && Crypto.Separating(k) && Run(k, states, events) && i < |states|
    requires c in states[i].peers && a < |states[i].peers[c].shown|
    ensures var y := states[i]; var s := y.peers[c].shown[a];
            && s.tag < |y.history|
            && var m := y.history[s.tag];
               m.reply.Some? && m.reply.value < |y.replies| && y.replies[m.reply.value].login in y.peers
               && var holder := y.peers[y.replies[m.reply.value].login].cl.priv;
                  (s.what.Shows? ==> s.what == C.Shows(m.senderName, m.text) && k.pub(y.peers[c].cl.priv) == k.pub(holder))
                  && (s.what != C.WrongState && k.pub(y.peers[c].cl.priv) != k.pub(holder) ==> s.what == C.DecryptFailed(m.senderName))
                  && (s.what != C.WrongState && y.replies[m.reply.value].login == c ==> s.what == C.Shows(m.senderName, m.text))
  {
    hide Step, Enabled, Inv, Crypto.Lawful, Crypto.Separating;
    ShownExactly(k, states, events, i, c);
    RunInv(k, states, events, i);
    var holder := KeyIsPublic(k, states[i], states[i].peers[c].shown[a].tag);
  }
}
