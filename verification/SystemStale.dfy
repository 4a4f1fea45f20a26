/** When the key wait of send_chat is not safe: every way in which an older request or answer gets used, and the exact condition. */
module SystemStale {
  import opened Bytes
  import opened Wire
  import opened Phases
  import opened SystemSpec
  import opened SystemLinks
  import opened SystemProofs
  import opened SystemPaths
  import opened SystemAccounts
  import opened SystemKeys
  import S = ServerSpec
  import SP = ServerProofs
  import C = ClientSpec
  import UsersFile
  import Crypto

  /** An answer already counted by the semaphore: the wait succeeds at once, with the old key. */
  lemma StaleCounted(k: Crypto.Suite, y: System, c: nat, recipient: seq<byte>, text: seq<byte>)
    returns (ys: seq<System>, es: seq<Event>)
    requires Crypto.Lawful(k) && Enabled(k, y, Ask(c, recipient, text, true))
    requires y.peers[c].cl.keySem > 0 && y.peers[c].keyReply.Some?
    requires Inv(k, y)
    ensures Fetch(k, ys, es, c, recipient, text) && ys[0] == y && !Fresh(ys[|es|])
    ensures IsFor(ys[|es|], c, recipient, text, |y.replies|)
    ensures var m := ys[|es|].history[|ys[|es|].history| - 1]; m.reply == y.peers[c].keyReply && m.reply.value < m.asked
    ensures ys[|es|].replies == y.replies
  {
    hide Inv;
    var e := Ask(c, recipient, text, true);
    var y1 := Step(k, y, e);
    StepKeeps(k, y, e);
    KeyReplyIs(k, y, c);
    var y2, e2 := Tells(k, y1, c);
    ys, es := [y, y1, y2], [e, e2];
  }

  /** Back from the wait with a key: the message goes out. */
  lemma Tells(k: Crypto.Suite, y: System, c: nat) returns (y': System, e: Event)
    requires Crypto.Lawful(k) && c in y.peers && y.peers[c].cl.pc.Fetching? && y.peers[c].cl.keySem > 0 && y.peers[c].keyReply.Some?
    requires Inv(k, y)
    ensures e.Tell? && e.c == c && Enabled(k, y, e) && y' == Step(k, y, e)
    ensures |y'.history| == |y.history| + 1 && y'.replies == y.replies
    ensures IsFor(y', c, y.peers[c].cl.pc.recipient, y.peers[c].cl.pc.text, y.peers[c].asked)
    ensures y'.history[|y.history|].reply == y.peers[c].keyReply
  {
    hide Inv, Crypto.Lawful, Crypto.Encrypt, Zeros;
    Crypto.Sizes(k, [], [], [], []);
    UsableKey(k, y, c);
    e := Tell(c, [], Nonce(), true, true);
    y' := Step(k, y, e);
  }

  function Nonce(): (n: seq<byte>)
    ensures |n| == NONCE_LEN
  {
    Zeros(NONCE_LEN)
  }

  lemma UsableKey(k: Crypto.Suite, y: System, c: nat)
    requires Crypto.Lawful(k) && c in y.peers && y.peers[c].keyReply.Some?
    requires Inv(k, y)
    ensures y.peers[c].cl.keyResult != Zeros(KEY_LEN)
  {
    KeyReplyIs(k, y, c);
    hide SP.Inv, Link, CredOk, MessageOk, Zeros;
    assert ReplyOk(k, y.peers, y.replies[y.peers[c].keyReply.value]);
  }

  /** Taking the packets up to a KEY_RESP leaves its key as the one to use. */
  lemma {:induction false} TakesUpTo(k: Crypto.Suite, y: System, c: nat, j: nat) returns (ys: seq<System>, es: seq<Event>)
    requires Crypto.Lawful(k) && c in y.peers && y.peers[c].cl.pc.Fetching?
    requires j < |y.peers[c].down| && y.peers[c].down[j].pkt.KeyResp?
    requires Inv(k, y)
    ensures Path(k, ys, es) && |es| == j + 1 && ys[0] == y
    ensures forall h | 0 <= h <= j + 1 :: c in ys[h].peers && ys[h].peers[c].cl.pc == y.peers[c].cl.pc
    ensures var p := ys[j + 1].peers[c];
            p.keyReply == Some(y.peers[c].down[j].tag) && p.cl.keySem > 0 && p.asked == y.peers[c].asked
    ensures ys[j + 1].replies == y.replies && ys[j + 1].history == y.history
    decreases j
  {
    hide Inv, TakePeer;
    var e := Take(c, true);
    Fits(k, y, c, y.peers[c].down[0]);
    var y1 := Step(k, y, e);
    TakeOne(k, y.peers[c]);
    if j == 0 {
      ys, es := [y, y1], [e];
    } else {
      StepKeeps(k, y, e);
      ys, es := TakesUpTo(k, y1, c, j - 1);
      PathJoins(k, [y, y1], [e], ys, es);
      ys, es := [y, y1] + ys[1..], [e] + es;
    }
  }

  lemma Fits(k: Crypto.Suite, y: System, c: nat, f: Flight)
    requires c in y.peers && f in y.peers[c].down
    requires Inv(k, y)
    ensures WellFormed(f.pkt)
  {
    hide SP.Inv, LogInv, CredOk, PhaseLink, AuthLink, RespLink, KeyLink, ChatLink, FetchLink;
    assert Link(k, c, y.peers[c], y.server.sessions[c], y.history, y.replies);
  }

  lemma TakeOne(k: Crypto.Suite, p: Peer)
    requires CanTake(p)
    ensures var p' := TakePeer(k, p, true);
            && p'.cl.pc == p.cl.pc && p'.asked == p.asked && p'.down == p.down[1..]
            && (p.down[0].pkt.KeyResp? ==> p'.keyReply == Some(p.down[0].tag) && p'.cl.keySem > 0)
  {
  }

  /** An answer still on its way down: it is taken for the answer to the new request. */
  lemma StaleInFlight(k: Crypto.Suite, y: System, c: nat, recipient: seq<byte>, text: seq<byte>, j: nat)
    returns (ys: seq<System>, es: seq<Event>)
    requires Crypto.Lawful(k) && Enabled(k, y, Ask(c, recipient, text, true))
    requires j < |y.peers[c].down| && y.peers[c].down[j].pkt.KeyResp?
    requires Inv(k, y)
    ensures Fetch(k, ys, es, c, recipient, text) && ys[0] == y && !Fresh(ys[|es|])
    ensures IsFor(ys[|es|], c, recipient, text, |y.replies|)
    ensures var m := ys[|es|].history[|ys[|es|].history| - 1]; m.reply == Some(y.peers[c].down[j].tag) && m.reply.value < m.asked
    ensures ys[|es|].replies == y.replies && |ys[|es|].history| == |y.history| + 1
  {
    hide Inv, Step, Enabled;
    var e := Ask(c, recipient, text, true);
    var y1 := Step(k, y, e);
    Asked(k, y, c, recipient, text, true);
    StepKeeps(k, y, e);
    var zs, fs := UseAnswer(k, y1, c, j);
    ys, es := Joined(k, [y, y1], [e], zs, fs, c);
    OldTag(k, y, c, y.peers[c].down[j]);
  }

  /** The rest of send_chat, with the answer at place `j` of the down channel. */
  lemma UseAnswer(k: Crypto.Suite, y: System, c: nat, j: nat) returns (ys: seq<System>, es: seq<Event>)
    requires Crypto.Lawful(k) && c in y.peers && y.peers[c].cl.pc.Fetching?
    requires j < |y.peers[c].down| && y.peers[c].down[j].pkt.KeyResp?
    requires Inv(k, y)
    ensures Path(k, ys, es) && |es| == j + 2 && ys[0] == y && es[j + 1].Tell? && es[j + 1].c == c
    ensures forall h | 0 <= h < |es| :: c in ys[h].peers && ys[h].peers[c].cl.pc.Fetching?
    ensures |ys[|es|].history| == |ys[|es| - 1].history| + 1 == |y.history| + 1 && ys[|es|].replies == y.replies
    ensures IsFor(ys[|es|], c, y.peers[c].cl.pc.recipient, y.peers[c].cl.pc.text, y.peers[c].asked)
    ensures ys[|es|].history[|ys[|es|].history| - 1].reply == Some(y.peers[c].down[j].tag)
  {
    hide Inv, Step, Enabled;
    ys, es := TakesUpTo(k, y, c, j);
    PathKeeps(k, ys, es, j + 1);
    var y', e' := Tells(k, ys[j + 1], c);
    PathGrows(k, ys, es, e');
    ys, es := ys + [y'], es + [e'];
  }

  /** A call of send_chat from its first step and its rest. */
  lemma Joined(k: Crypto.Suite, xs: seq<System>, ds: seq<Event>, ys: seq<System>, es: seq<Event>, c: nat)
    returns (zs: seq<System>, fs: seq<Event>)
    requires Path(k, xs, ds) && Path(k, ys, es) && xs[|ds|] == ys[0] && ds != [] && es != []
    requires ds[0].Ask? && ds[0].c == c && es[|es| - 1].Tell? && es[|es| - 1].c == c
    requires forall h | 0 < h < |ds| :: c in xs[h].peers && xs[h].peers[c].cl.pc.Fetching?
    requires forall h | 0 <= h < |es| :: c in ys[h].peers && ys[h].peers[c].cl.pc.Fetching?
    requires |ys[|es|].history| == |ys[|es| - 1].history| + 1
    ensures Fetch(k, zs, fs, c, ds[0].recipient, ds[0].text) && zs[0] == xs[0] && zs[|fs|] == ys[|es|]
  {
    hide Step, Enabled;
    PathJoins(k, xs, ds, ys, es);
    zs, fs := xs + ys[1..], ds + es;
    assert forall h | |ds| <= h <= |fs| :: zs[h] == ys[h - |ds|];
    assert fs[|fs| - 1] == es[|es| - 1];
  }

  lemma OldTag(k: Crypto.Suite, y: System, c: nat, f: Flight)
    requires c in y.peers && f in y.peers[c].down && f.pkt.KeyResp?
    requires Inv(k, y)
    ensures f.tag < |y.replies| && y.replies[f.tag].name == f.pkt.name
  {
    hide SP.Inv, LogInv, CredOk, PhaseLink, AuthLink, RespLink, KeyLink, ChatLink, WfLink;
    assert Link(k, c, y.peers[c], y.server.sessions[c], y.history, y.replies);
  }

  // ---------- an older request on its way up ----------

  /** In all these states the client is in send_chat, asking the same. */
  ghost predicate Busy(ys: seq<System>, c: nat, pc: C.Pc) {
    pc.Fetching? && forall h | 0 <= h < |ys| :: c in ys[h].peers && ys[h].peers[c].cl.pc == pc
  }

  lemma UpFits(k: Crypto.Suite, y: System, c: nat, f: Flight)
    requires c in y.peers && f in y.peers[c].up
    requires Inv(k, y)
    ensures WellFormed(f.pkt)
  {
    hide SP.Inv, LogInv, CredOk, PhaseLink, AuthLink, RespLink, KeyLink, ChatLink, FetchLink;
    assert Link(k, c, y.peers[c], y.server.sessions[c], y.history, y.replies);
  }

  /** The session answers requests. */
  predicate Serving(y: System, c: nat) {
    c in y.peers && S.Live(y.server, c) && y.server.sessions[c].phase == StEstablished
  }

  /** Anything but a BYE leaves an established session and the registry as they are. */
  lemma RecvServes(s: S.Server, c: nat, p: Packet, ok: bool, ok2: bool)
    requires S.Live(s, c) && s.sessions[c].phase == StEstablished && WellFormed(p) && !p.Bye?
    ensures var s' := S.OnRecv(s, c, c, p, ok, ok2).server;
            S.Live(s', c) && s'.sessions[c].phase == StEstablished && s'.registry == s.registry
  {
    hide Text, S.Try, S.Complain, S.OffersV1, Forward;
  }

  /** The server takes one packet that is not a BYE. */
  lemma TakesIn(k: Crypto.Suite, y: System, c: nat)
    requires Serving(y, c) && y.peers[c].up != [] && WellFormed(y.peers[c].up[0].pkt) && !y.peers[c].up[0].pkt.Bye?
    ensures Enabled(k, y, Arrive(c, true, true))
    ensures var y' := Step(k, y, Arrive(c, true, true));
            && Serving(y', c) && y'.server.registry == y.server.registry && y'.peers[c].cl == y.peers[c].cl
            && y'.peers[c].up == y.peers[c].up[1..] && y'.peers[c].asked == y.peers[c].asked && y.replies <= y'.replies
  {
    hide SystemSpec.Post, S.OnRecv;
    var q := y.peers[c].up[0].pkt;
    RecvServes(y.server, c, q, true, true);
    ArriveClients(y, c, true, true, c);
    var p := y.peers[c];
    PostKeeps(y.peers[c := p.(up := p.up[1..])], S.OnRecv(y.server, c, c, q, true, true).sends,
              if q.KeyReq? then |y.replies| else p.up[0].tag, c);
  }

  /** The server takes the packets before place `j`. */
  lemma {:induction false} TakesInUpTo(k: Crypto.Suite, y: System, c: nat, j: nat) returns (ys: seq<System>, es: seq<Event>)
    requires Crypto.Lawful(k) && Serving(y, c) && y.peers[c].cl.pc.Fetching?
    requires j < |y.peers[c].up| && !ByeBefore(y.peers[c].up, j)
    requires Inv(k, y)
    ensures Path(k, ys, es) && ys[0] == y && Busy(ys, c, y.peers[c].cl.pc)
    ensures var z := ys[|es|];
            && Serving(z, c) && z.server.registry == y.server.registry && z.peers[c].up == y.peers[c].up[j..]
            && z.peers[c].asked == y.peers[c].asked && y.replies <= z.replies
    decreases j
  {
    hide Inv, Step, Enabled, Crypto.Lawful;
    if j == 0 {
      ys, es := [y], [];
    } else {
      var e, up := Arrive(c, true, true), y.peers[c].up;
      UpFits(k, y, c, up[0]);
      TakesIn(k, y, c);
      StepKeeps(k, y, e);
      var y1 := Step(k, y, e);
      assert forall i | 0 <= i < j - 1 :: up[1..][i] == up[i + 1];
      ys, es := TakesInUpTo(k, y1, c, j - 1);
      PathJoins(k, [y, y1], [e], ys, es);
      ys, es := [y, y1] + ys[1..], [e] + es;
    }
  }

  /** From the request's being made to its being answered: the name is listed if it is not, the server takes what stands before it. */
  lemma GetsAnswered(k: Crypto.Suite, y: System, c: nat, j: nat) returns (ys: seq<System>, es: seq<Event>)
    requires Crypto.Lawful(k) && Serving(y, c) && y.peers[c].cl.pc.Fetching?
    requires j < |y.peers[c].up| && y.peers[c].up[j].pkt.KeyReq? && !Hopeless(y, c, j)
    requires Inv(k, y)
    ensures Path(k, ys, es) && ys[0] == y && Busy(ys, c, y.peers[c].cl.pc)
    ensures var z := ys[|es|]; var n := y.peers[c].up[j].pkt.name;
            && |z.peers[c].down| > 0 && z.peers[c].asked == y.peers[c].asked
            && var f := z.peers[c].down[|z.peers[c].down| - 1];
               f.pkt.KeyResp? && f.tag < |z.replies| && z.replies[f.tag].name == n
    ensures Inv(k, ys[|es|])
  {
    hide Inv, Step, Enabled, Crypto.Lawful, Obtainable;
    var pc, n := y.peers[c].cl.pc, y.peers[c].up[j].pkt.name;
    ys, es := ListedBeside(k, y, n, c);
    assert Undisturbed(y, ys, c);
    var y1 := ys[|es|];
    assert Same(y, y1, c);
    PathKeeps(k, ys, es, |es|);
    var zs, fs := TakesInUpTo(k, y1, c, j);
    PathKeeps(k, zs, fs, |fs|);
    BusyJoins(k, ys, es, zs, fs, c, pc);
    ys, es := ys + zs[1..], es + fs;
    var y2 := ys[|es|];
    UpFits(k, y2, c, y2.peers[c].up[0]);
    AnswerAdded(k, y2, c);
    var e := Arrive(c, true, true);
    StepKeeps(k, y2, e);
    PathGrows(k, ys, es, e);
    ys, es := ys + [Step(k, y2, e)], es + [e];
  }

  lemma BusyJoins(k: Crypto.Suite, xs: seq<System>, ds: seq<Event>, ys: seq<System>, es: seq<Event>, c: nat, pc: C.Pc)
    requires Path(k, xs, ds) && Path(k, ys, es) && xs[|ds|] == ys[0] && Busy(ys, c, pc) && Undisturbed(xs[0], xs, c)
    ensures Path(k, xs + ys[1..], ds + es) && (xs + ys[1..])[|ds| + |es|] == ys[|es|] && Busy(xs + ys[1..], c, pc)
  {
    hide Step, Enabled;
    PathJoins(k, xs, ds, ys, es);
    assert Same(xs[0], xs[|ds|], c);
    forall h | 0 <= h < |xs|
      ensures c in xs[h].peers && xs[h].peers[c].cl.pc == pc
    {
      assert Same(xs[0], xs[h], c);
    }
  }

  /** A request for somebody else that is not hopeless, wherever it stands on its way up: its key is used for the recipient. */
  lemma StaleRequest(k: Crypto.Suite, y: System, c: nat, recipient: seq<byte>, text: seq<byte>, j: nat)
    returns (ys: seq<System>, es: seq<Event>)
    requires Crypto.Lawful(k) && Enabled(k, y, Ask(c, recipient, text, true)) && PastLogin(y, c)
    requires j < |y.peers[c].up| && y.peers[c].up[j].pkt.KeyReq? && y.peers[c].up[j].pkt.name != recipient && !Hopeless(y, c, j)
    requires Inv(k, y)
    ensures Fetch(k, ys, es, c, recipient, text) && ys[0] == y && !Fresh(ys[|es|])
    ensures IsFor(ys[|es|], c, recipient, text, |y.replies|)
    ensures var m := ys[|es|].history[|ys[|es|].history| - 1];
            m.reply.Some? && m.reply.value < |ys[|es|].replies| && ys[|es|].replies[m.reply.value].name == y.peers[c].up[j].pkt.name
  {
    hide Inv, Step, Enabled, Crypto.Lawful;
    var e := Ask(c, recipient, text, true);
    var y1 := Step(k, y, e);
    Asked(k, y, c, recipient, text, true);
    StepKeeps(k, y, e);
    StillHopeful(y, y1, c, j);
    var xs, ds := GetsAnswered(k, y1, c, j);
    var z := xs[|ds|];
    var zs, fs := UseAnswer(k, z, c, |z.peers[c].down| - 1);
    PathJoins(k, [y, y1], [e], xs, ds);
    ys, es := Joined(k, [y, y1] + xs[1..], [e] + ds, zs, fs, c);
  }

  lemma StillHopeful(y: System, y1: System, c: nat, j: nat)
    requires c in y.peers && c in y1.peers && j < |y.peers[c].up| <= |y1.peers[c].up| && y.peers[c].up <= y1.peers[c].up
    requires y1.server == y.server && y1.users == y.users && y.peers[c].up[j].pkt.KeyReq? && !Hopeless(y, c, j) && PastLogin(y, c)
    ensures y1.peers[c].up[j] == y.peers[c].up[j] && !Hopeless(y1, c, j) && Serving(y1, c)
  {
    hide UsersFile.Fields;
    forall b | 0 <= b < j
      ensures !y1.peers[c].up[b].pkt.Bye?
    {
      assert y1.peers[c].up[b] == y.peers[c].up[b];
    }
  }

  lemma Asked(k: Crypto.Suite, y: System, c: nat, recipient: seq<byte>, text: seq<byte>, ok: bool)
    requires Enabled(k, y, Ask(c, recipient, text, ok))
    ensures c in y.peers && y.peers[c].cl.pc.Idle?
    ensures Step(k, y, Ask(c, recipient, text, ok)) == y.(peers := y.peers[c := AskPeer(y.peers[c], recipient, text, ok, |y.replies|)])
  {
  }

  lemma AnswerAdded(k: Crypto.Suite, y: System, c: nat)
    requires c in y.peers && S.Live(y.server, c) && y.server.sessions[c].phase == StEstablished && y.peers[c].up != []
    requires var q := y.peers[c].up[0].pkt; q.KeyReq? && WellFormed(q) && q.name in y.server.registry
    ensures Enabled(k, y, Arrive(c, true, true))
    ensures var q, y' := y.peers[c].up[0].pkt, Step(k, y, Arrive(c, true, true)); var e := y.server.registry[q.name];
            && y'.peers.Keys == y.peers.Keys && y'.history == y.history
            && y'.peers[c] == y.peers[c].(up := y.peers[c].up[1..],
                                          down := y.peers[c].down + [Flight(KeyResp(q.id, q.name, 32, e.key), |y.replies|)])
            && y'.replies == y.replies + [Reply(c, q.name, e.key, e.owner)]
  {
    hide Text;
    var q := y.peers[c].up[0].pkt;
    PostTry(y.peers[c := y.peers[c].(up := y.peers[c].up[1..])], c, true, KeyResp(q.id, q.name, 32, y.server.registry[q.name].key), |y.replies|);
  }

  /** Every call of send_chat for `recipient` that can follow and sends a message seals it with a fresh key. */
  ghost predicate AlwaysFresh(k: Crypto.Suite, y: System, c: nat, recipient: seq<byte>, text: seq<byte>) {
    forall ys, es | Fetch(k, ys, es, c, recipient, text) && ys[0] == y :: Fresh(ys[|es|])
  }

  /**
   The exact condition, at every prompt of every run: the key is fresh in everything that can follow if and only if no
   KEY_RESP is on its way down, the semaphore counts no key already received, and every request on its way up is for
   the same recipient or can never be answered with a key.
   */
  lemma AlwaysFreshIff(k: Crypto.Suite, states: seq<System>, events: seq<Event>, c: nat, recipient: seq<byte>, text: seq<byte>)
    requires Crypto.Lawful(k) && Run(k, states, events) && Enabled(k, states[|events|], Ask(c, recipient, text, true))
    ensures AlwaysFresh(k, states[|events|], c, recipient, text) <==> NothingStale(states[|events|], c, recipient)
  {
    hide Inv, Step, Fresh, Hopeless, PastLogin, Crypto.Lawful;
    var y := states[|events|];
    var p := y.peers[c];
    RunInv(k, states, events, |events|);
    ChatsPastLogin(k, states, events, |events|, c);
    if NothingStale(y, c, recipient) {
      forall ys, es | Fetch(k, ys, es, c, recipient, text) && ys[0] == y
        ensures Fresh(ys[|es|])
      {
        FreshAlongPath(k, ys, es, c, recipient, text);
      }
    } else if p.cl.keySem > 0 && p.keyReply.Some? {
      var ys, es := StaleCounted(k, y, c, recipient, text);
    } else if !NoForeign(y, c, recipient) {
      var j :| 0 <= j < |p.up| && p.up[j].pkt.KeyReq? && p.up[j].pkt.name != recipient && !Hopeless(y, c, j);
      var ys, es := StaleRequest(k, y, c, recipient, text, j);
    } else {
      var f :| f in p.down && f.pkt.KeyResp?;
      var j :| 0 <= j < |p.down| && p.down[j] == f;
      var ys, es := StaleInFlight(k, y, c, recipient, text, j);
    }
  }
}
