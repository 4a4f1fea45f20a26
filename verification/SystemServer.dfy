/**
 The server's part of a run of the composed system is a run of the server, so whatever holds in every run of
 the server holds of the system.
 */
module SystemServer {
  import opened Bytes
  import opened Wire
  import opened SystemSpec
  import opened SystemLinks
  import opened SystemProofs
  import opened SystemTheorems
  import U = UsersFile
  import S = ServerSpec
  import SP = ServerProofs
  import Crypto

  /**
   The server's run `ss`, `se` inside the first `i` steps of the system's: `at[q]` is the system's step that is
   the server's step q, and `pos[h]` the number of server steps among the system's first h.
   */
  datatype Projection = Projection(ss: seq<S.Server>, se: seq<S.Event>, at: seq<nat>, pos: seq<nat>)

  ghost predicate Projects(states: seq<System>, events: seq<Event>, i: nat, r: Projection)
    requires |states| == |events| + 1 && i < |states|
  {
    && S.Run(r.ss, r.se) && |r.ss| == |r.se| + 1 && |r.at| == |r.se| && |r.pos| == i + 1 && r.pos[i] == |r.se|
    && (forall q | 0 <= q < |r.at| ::
          && r.at[q] < i && r.pos[r.at[q]] == q
          && ServerEvent(states[r.at[q]], events[r.at[q]]) == Some(r.se[q]))
    && (forall q, q' | 0 <= q < q' < |r.at| :: r.at[q] < r.at[q'])
    && (forall h | 0 <= h <= i :: r.pos[h] <= |r.se| && r.ss[r.pos[h]] == states[h].server)
    && (forall h, h' | 0 <= h <= h' <= i :: r.pos[h] <= r.pos[h'])
  }

  lemma ExtendRun(ss: seq<S.Server>, se: seq<S.Event>, e: S.Event)
    requires S.Run(ss, se) && S.Enabled(ss[|se|], e)
    ensures S.Run(ss + [S.Next(ss[|se|], e).server], se + [e])
  {
    hide S.Next, S.Enabled;
  }

  lemma ProjectServerStep(states: seq<System>, events: seq<Event>, i: nat, r: Projection, e: S.Event) returns (r': Projection)
    requires |states| == |events| + 1 && 0 < i < |states| && Projects(states, events, i - 1, r)
    requires ServerEvent(states[i - 1], events[i - 1]) == Some(e)
    requires S.Run(r.ss + [states[i].server], r.se + [e])
    ensures Projects(states, events, i, r')
  {
    hide ServerEvent, S.Run;
    r' := Projection(r.ss + [states[i].server], r.se + [e], r.at + [i - 1], r.pos + [|r.se| + 1]);
    forall h | 0 <= h <= i
      ensures r'.pos[h] <= |r'.se| && r'.ss[r'.pos[h]] == states[h].server
    {
      assert h < i ==> r'.pos[h] == r.pos[h] && r'.ss[r.pos[h]] == r.ss[r.pos[h]];
    }
  }

  lemma ProjectOtherStep(states: seq<System>, events: seq<Event>, i: nat, r: Projection) returns (r': Projection)
    requires |states| == |events| + 1 && 0 < i < |states| && Projects(states, events, i - 1, r)
    requires states[i].server == states[i - 1].server
    ensures Projects(states, events, i, r')
  {
    hide ServerEvent, S.Run;
    r' := r.(pos := r.pos + [|r.se|]);
  }

  lemma {:induction false} RunProjects(k: Crypto.Suite, states: seq<System>, events: seq<Event>, i: nat) returns (r: Projection)
    requires Crypto.Lawful(k) && Run(k, states, events) && i < |states|
    ensures Projects(states, events, i, r)
  {
    hide Step, Enabled, Inv, ServerEvent, S.Next, S.Enabled;
    if i == 0 {
      r := Projection([S.Init()], [], [], [0]);
    } else {
      r := RunProjects(k, states, events, i - 1);
      RunInv(k, states, events, i - 1);
      StepProjects(k, states[i - 1], events[i - 1]);
      if ServerEvent(states[i - 1], events[i - 1]).Some? {
        var e := ServerEvent(states[i - 1], events[i - 1]).value;
        ExtendRun(r.ss, r.se, e);
        r := ProjectServerStep(states, events, i, r, e);
      } else {
        r := ProjectOtherStep(states, events, i, r);
      }
    }
  }

  /**
   Each listing goes back to an AUTH_REQ that arrived from its own client at step `q`, and to a worker step `w`
   that found its name, cut at a zero byte, and its hash in the users file of that moment.
   */
  lemma LoginBacked(k: Crypto.Suite, states: seq<System>, events: seq<Event>, i: nat, n: seq<byte>) returns (q: nat, w: nat)
    requires Crypto.Lawful(k) && Run(k, states, events) && i < |states| && n in states[i].server.registry
    ensures q < w < i && events[q].Arrive? && events[w].Work? && |events[w].junk| == HASH_LEN
    ensures var e := states[i].server.registry[n];
            && events[q].c == e.owner && e.owner in states[q].peers && states[q].peers[e.owner].up != []
            && states[w].server.queue != [] && states[w].server.queue[0] == e.owner
            && var req := states[q].peers[e.owner].up[0].pkt;
               && req.AuthReq? && req.name == n && (req.keyLen == 32 ==> e.key == req.key)
               && U.Verify(states[w].users, CString(n), req.hash, events[w].junk)
  {
    hide Step, Enabled, U.Verify, S.Next, S.Enabled;
    var r := RunProjects(k, states, events, i);
    var a, b := SP.LoginBacked(r.ss, r.se, r.pos[i], n);
    q, w := r.at[a], r.at[b];
    assert r.pos[w] == b;
  }

  /** Once a client's connection is gone its session is never listed again. */
  lemma ClosedNeverServed(k: Crypto.Suite, states: seq<System>, events: seq<Event>, i: nat, j: nat, c: nat)
    requires Crypto.Lawful(k) && Run(k, states, events) && i <= j < |states| && SP.Gone(states[i].server, c)
    ensures SP.Gone(states[j].server, c)
    ensures forall n | n in states[j].server.registry :: states[j].server.registry[n].owner != c
  {
    hide Step, Enabled, S.Next, S.Enabled;
    var r := RunProjects(k, states, events, j);
    SP.ClosedNeverServed(r.ss, r.se, r.pos[i], r.pos[j], c);
  }

  /** And when the worker comes to it, no client is sent anything. */
  lemma ClosedNeverAnswered(k: Crypto.Suite, states: seq<System>, events: seq<Event>, i: nat, j: nat, c: nat)
    requires Crypto.Lawful(k) && Run(k, states, events) && i <= j < |events| && SP.Gone(states[i].server, c)
    requires events[j].Work? && states[j].server.queue != [] && states[j].server.queue[0] == c
    ensures states[j + 1].peers == states[j].peers
  {
    hide Step, Enabled, Inv, SP.Gone;
    ClosedNeverServed(k, states, events, i, j, c);
    RunInv(k, states, events, j);
    SilentWork(k, states[j], events[j], c);
  }

  lemma SilentWork(k: Crypto.Suite, y: System, e: Event, c: nat)
    requires Enabled(k, y, e) && e.Work? && y.server.queue[0] == c && SP.Gone(y.server, c)
    requires Inv(k, y)
    ensures Step(k, y, e).peers == y.peers
  {
    hide SP.QueueInv, SP.LifeInv, SP.RegistryInv, SP.IdInv, SP.HeadOk, Link, LogInv, CredOk, S.Work;
    SP.InvHead(y.server);
    SP.WorkMoves(y.server, y.users, e.junk, e.ok);
  }

  /** Clients past HELLO have distinct non-zero session IDs exactly while at most 2^32 - 1 HELLOs were accepted. */
  lemma SessionIdsUniqueIff(k: Crypto.Suite, states: seq<System>, events: seq<Event>, i: nat)
    requires Crypto.Lawful(k) && Run(k, states, events) && i < |states|
    ensures SP.IdsDistinctNonZero(states[i].server) <==> |states[i].server.accepted| <= 4294967295
  {
    hide Step, Enabled, S.Next, S.Enabled, SP.IdsDistinctNonZero;
    var r := RunProjects(k, states, events, i);
    SP.SessionIdsUniqueIff(r.ss, r.se, r.pos[i]);
  }

  /** What the server sends as CHAT_DELIVER at any step names the sender that owns the listing of that name. */
  lemma DeliverNamesSender(k: Crypto.Suite, states: seq<System>, events: seq<Event>, i: nat, x: S.Send)
    requires Crypto.Lawful(k) && Run(k, states, events) && i < |events|
    requires ServerEvent(states[i], events[i]).Some? && S.Enabled(states[i].server, ServerEvent(states[i], events[i]).value)
    requires x in S.Next(states[i].server, ServerEvent(states[i], events[i]).value).sends && x.pkt.ChatDeliver?
    ensures events[i].Arrive? && events[i].c in states[i].peers && states[i].peers[events[i].c].up != []
    ensures var sent := states[i].peers[events[i].c].up[0].pkt;
            && sent.ChatSend? && x.pkt == Forward(sent, x.pkt.name)
            && x.pkt.name in states[i].server.registry && states[i].server.registry[x.pkt.name].owner == events[i].c
  {
    hide Step, Enabled, S.Next, S.Enabled;
    var r := RunProjects(k, states, events, i);
    var e := ServerEvent(states[i], events[i]).value;
    ExtendRun(r.ss, r.se, e);
    SP.DeliverNamesSender(r.ss + [S.Next(r.ss[|r.se|], e).server], r.se + [e], |r.se|, x);
  }
}
