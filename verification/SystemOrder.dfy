/** Chats are neither duplicated nor reordered between a sender and a recipient, over every run. */
module SystemOrder {
  import opened Bytes
  import opened Wire
  import opened SystemSpec
  import opened SystemLinks
  import opened SystemProofs
  import UsersFile
  import S = ServerSpec
  import C = ClientSpec
  import Crypto

  // ---------- message numbers in a channel ----------

  function UpTags(fs: seq<Flight>): seq<nat> {
    if fs == [] then [] else (if fs[0].pkt.ChatSend? then [fs[0].tag] else []) + UpTags(fs[1..])
  }

  function DownTags(fs: seq<Flight>): seq<nat> {
    if fs == [] then [] else (if fs[0].pkt.ChatDeliver? then [fs[0].tag] else []) + DownTags(fs[1..])
  }

  function ShownTags(shown: seq<Shown>): seq<nat> {
    seq(|shown|, i requires 0 <= i < |shown| => shown[i].tag)
  }

  /** The messages that reached this client or are on their way down to it, in order. */
  function Line(p: Peer): seq<nat> {
    ShownTags(p.shown) + DownTags(p.down)
  }

  lemma {:induction false} UpTagsPush(fs: seq<Flight>, f: Flight)
    ensures UpTags(fs + [f]) == UpTags(fs) + if f.pkt.ChatSend? then [f.tag] else []
  {
    if fs == [] {
      assert [] + [f] == [f] && [f][1..] == [];
    } else {
      UpTagsPush(fs[1..], f);
      assert (fs + [f])[1..] == fs[1..] + [f];
    }
  }

  lemma {:induction false} DownTagsPush(fs: seq<Flight>, f: Flight)
    ensures DownTags(fs + [f]) == DownTags(fs) + if f.pkt.ChatDeliver? then [f.tag] else []
  {
    if fs == [] {
      assert [] + [f] == [f] && [f][1..] == [];
    } else {
      DownTagsPush(fs[1..], f);
      assert (fs + [f])[1..] == fs[1..] + [f];
    }
  }

  lemma LinePush(p: Peer, f: Flight)
    ensures Line(p.(down := p.down + [f])) == Line(p) + if f.pkt.ChatDeliver? then [f.tag] else []
  {
    DownTagsPush(p.down, f);
  }

  /** Taking a packet moves it from the channel to the screen: the line stays the same. */
  lemma TakeLine(k: Crypto.Suite, p: Peer, ok: bool)
    requires CanTake(p)
    ensures Line(TakePeer(k, p, ok)) == Line(p) && UpTags(TakePeer(k, p, ok).up) == UpTags(p.up)
  {
    var p' := TakePeer(k, p, ok);
    if p'.up != p.up {
      UpTagsPush(p.up, p'.up[|p.up|]);
      assert p'.up == p.up + [p'.up[|p.up|]];
    }
    if p.down[0].pkt.ChatDeliver? {
      assert ShownTags(p'.shown) == ShownTags(p.shown) + [p.down[0].tag];
    }
  }

  // ---------- the invariant ----------

  predicate Increasing(s: seq<nat>) {
    forall i, j | 0 <= i < j < |s| :: s[i] < s[j]
  }

  /** Messages of the same sender stand in the order they were sent. */
  predicate Ordered(line: seq<nat>, history: seq<Message>) {
    && (forall i | 0 <= i < |line| :: line[i] < |history|)
    && (forall i, j | 0 <= i < j < |line| && history[line[i]].sender == history[line[j]].sender :: line[i] < line[j])
  }

  /** What of sender `c` is already past the server was sent before what is still on its way up. */
  predicate Before(line: seq<nat>, c: nat, ups: seq<nat>, history: seq<Message>) {
    forall x, t | x in line && t in ups && x < |history| && history[x].sender == c :: x < t
  }

  predicate Sent(c: nat, ups: seq<nat>, history: seq<Message>) {
    Increasing(ups) && forall t | t in ups :: t < |history| && history[t].sender == c
  }

  predicate Apart(a: seq<nat>, b: seq<nat>) {
    forall x | x in a :: x !in b
  }

  ghost predicate OrderInv(y: System) {
    && (forall c | c in y.peers :: Sent(c, UpTags(y.peers[c].up), y.history))
    && (forall d | d in y.peers :: Ordered(Line(y.peers[d]), y.history))
    && (forall d, c | d in y.peers && c in y.peers ::
          Before(Line(y.peers[d]), c, UpTags(y.peers[c].up), y.history))
    && (forall d, e | d in y.peers && e in y.peers && d != e :: Apart(Line(y.peers[d]), Line(y.peers[e])))
  }

  // ---------- the three ways lines change ----------

  predicate SameLine(p: Peer, p': Peer) {
    Line(p') == Line(p) && (UpTags(p'.up) == UpTags(p.up) || (UpTags(p.up) != [] && UpTags(p'.up) == UpTags(p.up)[1..]))
  }

  lemma SentTail(c: nat, ups: seq<nat>, ups': seq<nat>, history: seq<Message>)
    requires Sent(c, ups, history) && (ups' == ups || (ups != [] && ups' == ups[1..]))
    ensures Sent(c, ups', history)
  {
  }

  lemma BeforeTail(line: seq<nat>, c: nat, ups: seq<nat>, ups': seq<nat>, history: seq<Message>)
    requires Before(line, c, ups, history) && (ups' == ups || (ups != [] && ups' == ups[1..]))
    ensures Before(line, c, ups', history)
  {
    assert forall t | t in ups' :: t in ups;
  }

  lemma OrderFrame(y: System, y': System)
    requires OrderInv(y) && y'.history == y.history
    requires forall c | c in y.peers :: c in y'.peers && SameLine(y.peers[c], y'.peers[c])
    requires forall c | c in y'.peers && c !in y.peers :: Line(y'.peers[c]) == [] && UpTags(y'.peers[c].up) == []
    ensures OrderInv(y')
  {
    hide UpTags, Line, Sent, Before;
    forall c | c in y'.peers
      ensures Sent(c, UpTags(y'.peers[c].up), y.history)
    {
      if c in y.peers {
        SentTail(c, UpTags(y.peers[c].up), UpTags(y'.peers[c].up), y.history);
      } else {
        EmptyFits(c, y.history);
      }
    }
    forall d, c | d in y'.peers && c in y'.peers
      ensures Before(Line(y'.peers[d]), c, UpTags(y'.peers[c].up), y'.history)
    {
      if d in y.peers && c in y.peers {
        BeforeTail(Line(y.peers[d]), c, UpTags(y.peers[c].up), UpTags(y'.peers[c].up), y.history);
      } else {
        EmptyBefore(Line(y'.peers[d]), c, UpTags(y'.peers[c].up), y.history);
      }
    }
  }

  lemma EmptyFits(c: nat, history: seq<Message>)
    ensures Sent(c, [], history)
  {
  }

  lemma EmptyBefore(line: seq<nat>, c: nat, ups: seq<nat>, history: seq<Message>)
    requires line == [] || ups == []
    ensures Before(line, c, ups, history)
  {
  }

  lemma TellFits(line: seq<nat>, c: nat, ups: seq<nat>, ups': seq<nat>, history: seq<Message>, m: Message)
    requires Ordered(line, history) && Sent(c, ups, history) && Before(line, c, ups, history)
    requires ups' == ups || (m.sender == c && ups' == ups + [|history|])
    ensures Ordered(line, history + [m]) && Sent(c, ups', history + [m]) && Before(line, c, ups', history + [m])
  {
    assert forall x | x in line :: x < |history|;
    assert Ordered(line, history + [m]);
    assert forall t | t in ups' :: t in ups || t == |history|;
    forall i | 0 <= i < |ups|
      ensures ups[i] < |history|
    {
      assert ups[i] in ups;
    }
    assert Sent(c, ups', history + [m]);
  }

  lemma OrderTell(y: System, y': System, c: nat, m: Message)
    requires OrderInv(y) && c in y.peers && m.sender == c && y'.history == y.history + [m]
    requires c in y'.peers && y'.peers == y.peers[c := y'.peers[c]]
    requires Line(y'.peers[c]) == Line(y.peers[c]) && UpTags(y'.peers[c].up) == UpTags(y.peers[c].up) + [|y.history|]
    ensures OrderInv(y')
  {
    hide UpTags, Line, Ordered, Sent, Before;
    forall d, e | d in y'.peers && e in y'.peers
      ensures Ordered(Line(y'.peers[d]), y'.history) && Sent(e, UpTags(y'.peers[e].up), y'.history)
      ensures Before(Line(y'.peers[d]), e, UpTags(y'.peers[e].up), y'.history)
    {
      TellFits(Line(y.peers[d]), e, UpTags(y.peers[e].up), UpTags(y'.peers[e].up), y.history, m);
    }
  }

  /** `t`, the oldest of c's chats on the way up, is newer than every chat of c in the line, and not in it. */
  lemma HeadIsNew(line: seq<nat>, c: nat, ups: seq<nat>, history: seq<Message>)
    requires Ordered(line, history) && Sent(c, ups, history) && Before(line, c, ups, history) && ups != []
    ensures ups[0] !in line && Ordered(line + [ups[0]], history)
  {
    var t := ups[0];
    assert t in ups;
    forall i | 0 <= i < |line| && history[line[i]].sender == c
      ensures line[i] < t
    {
      assert line[i] in line;
    }
  }

  lemma BeforeHead(line: seq<nat>, e: nat, ups: seq<nat>, ups': seq<nat>, history: seq<Message>, t: nat)
    requires Before(line, e, ups, history) && Sent(e, ups, history)
    requires t < |history| && (history[t].sender == e ==> ups != [] && t == ups[0] && ups' == ups[1..])
    requires history[t].sender != e ==> ups' == ups
    ensures Before(line, e, ups', history) && Before(line + [t], e, ups', history)
  {
    assert forall u | u in ups' :: u in ups && (history[t].sender == e ==> t < u);
  }

  /** The oldest chat still on its way up from `c` joins the line of `d`. */
  lemma OrderDeliver(y: System, y': System, c: nat, d: nat, t: nat)
    requires OrderInv(y) && c in y.peers && d in y.peers && y'.history == y.history && y'.peers.Keys == y.peers.Keys
    requires UpTags(y.peers[c].up) != [] && t == UpTags(y.peers[c].up)[0]
    requires UpTags(y'.peers[c].up) == UpTags(y.peers[c].up)[1..]
    requires forall e | e in y.peers && e != c :: UpTags(y'.peers[e].up) == UpTags(y.peers[e].up)
    requires forall e | e in y.peers && e != d :: Line(y'.peers[e]) == Line(y.peers[e])
    requires Line(y'.peers[d]) == Line(y.peers[d]) + [t]
    ensures OrderInv(y')
  {
    hide UpTags, Line, Ordered, Sent, Before;
    var ups := UpTags(y.peers[c].up);
    HeadSender(c, ups, y.history);
    forall e | e in y.peers
      ensures Sent(e, UpTags(y'.peers[e].up), y.history)
      ensures t !in Line(y.peers[e]) && Ordered(Line(y'.peers[e]), y.history)
    {
      SentTail(e, UpTags(y.peers[e].up), UpTags(y'.peers[e].up), y.history);
      HeadIsNew(Line(y.peers[e]), c, ups, y.history);
    }
    forall e, f | e in y.peers && f in y.peers
      ensures Before(Line(y'.peers[e]), f, UpTags(y'.peers[f].up), y.history)
    {
      BeforeHead(Line(y.peers[e]), f, UpTags(y.peers[f].up), UpTags(y'.peers[f].up), y.history, t);
    }
  }

  lemma HeadSender(c: nat, ups: seq<nat>, history: seq<Message>)
    requires Sent(c, ups, history) && ups != []
    ensures ups[0] < |history| && history[ups[0]].sender == c
  {
    assert ups[0] in ups;
  }

  // ---------- every step ----------

  /** Posting packets that are not chats changes no line. */
  lemma {:induction false} PostLines(peers: map<nat, Peer>, sends: seq<S.Send>, tag: nat, c: nat)
    requires c in peers && forall x | x in sends :: !x.pkt.ChatDeliver?
    ensures Line(Post(peers, sends, tag)[c]) == Line(peers[c]) && Post(peers, sends, tag)[c].up == peers[c].up
    decreases |sends|
  {
    if sends == [] {
    } else {
      var x := sends[0];
      PostLines(PostOne(peers, x, tag), sends[1..], tag, c);
      LinePush(peers[c], Flight(x.pkt, tag));
    }
  }

  lemma UpTagsPop(fs: seq<Flight>)
    requires fs != []
    ensures fs[0].pkt.ChatSend? ==> UpTags(fs) != [] && UpTags(fs)[0] == fs[0].tag && UpTags(fs[1..]) == UpTags(fs)[1..]
    ensures !fs[0].pkt.ChatSend? ==> UpTags(fs[1..]) == UpTags(fs)
  {
  }

  lemma ArriveQuiet(y: System, c: nat, ok: bool, ok2: bool)
    requires c in y.peers && c in y.server.sessions && y.peers[c].up != [] && WellFormed(y.peers[c].up[0].pkt)
    requires forall x | x in S.OnRecv(y.server, c, c, y.peers[c].up[0].pkt, ok, ok2).sends :: !x.pkt.ChatDeliver?
    requires OrderInv(y)
    ensures OrderInv(ArriveStep(y, c, ok, ok2))
  {
    hide S.OnRecv, UpTags, Line, SystemSpec.Post;
    var y' := ArriveStep(y, c, ok, ok2);
    var p := y.peers[c];
    var p1 := p.(up := p.up[1..]);
    UpTagsPop(p.up);
    assert Line(p1) == Line(p) by { LineUp(p, p1); }
    forall d | d in y.peers
      ensures SameLine(y.peers[d], y'.peers[d])
    {
      PostLines(y.peers[c := p1], S.OnRecv(y.server, c, c, p.up[0].pkt, ok, ok2).sends,
                if p.up[0].pkt.KeyReq? then |y.replies| else p.up[0].tag, d);
    }
    OrderFrame(y, y');
  }

  lemma LineUp(p: Peer, p': Peer)
    requires p'.down == p.down && p'.shown == p.shown
    ensures Line(p') == Line(p)
  {
  }

  lemma ArriveOrder(k: Crypto.Suite, y: System, c: nat, ok: bool, ok2: bool)
    requires Enabled(k, y, Arrive(c, ok, ok2))
    requires OrderInv(y)
    requires Inv(k, y)
    ensures OrderInv(ArriveStep(y, c, ok, ok2))
  {
    hide Inv, OrderInv, ArriveStep, UpTags, Line, Text;
    if ok && WillForward(y, c) {
      var d, g := ChatForwarded(k, y, c, ok2);
      ForwardOrder(y, c, d, g);
    } else {
      NoDelivery(y, c, ok, ok2);
      ArriveQuiet(y, c, ok, ok2);
    }
  }

  lemma NoDelivery(y: System, c: nat, ok: bool, ok2: bool)
    requires c in y.peers && S.Live(y.server, c) && y.peers[c].up != [] && WellFormed(y.peers[c].up[0].pkt)
    requires !(ok && WillForward(y, c))
    ensures forall x | x in S.OnRecv(y.server, c, c, y.peers[c].up[0].pkt, ok, ok2).sends :: !x.pkt.ChatDeliver?
  {
    hide Text;
  }

  lemma ForwardOrder(y: System, c: nat, d: nat, g: Flight)
    requires WillForward(y, c) && d in y.peers && g.pkt.ChatDeliver? && g.tag == y.peers[c].up[0].tag
    requires OrderInv(y)
    ensures OrderInv(Delivered(y, c, d, g))
  {
    hide OrderInv, UpTags, Line;
    var p := y.peers[c];
    var p1 := p.(up := p.up[1..]);
    var peers1 := y.peers[c := p1];
    var y' := Delivered(y, c, d, g);
    UpTagsPop(p.up);
    LinePush(peers1[d], g);
    LineUp(p, p1);
    OrderDeliver(y, y', c, d, g.tag);
  }

  lemma WorkOrder(y: System, junk: seq<byte>, ok: bool)
    requires y.server.queue != [] && |junk| == HASH_LEN
    requires OrderInv(y)
    ensures OrderInv(WorkStep(y, junk, ok))
  {
    hide UpTags, Line, SystemSpec.Post;
    var sends := S.Work(y.server, y.users, junk, ok).sends;
    assert forall x | x in sends :: !x.pkt.ChatDeliver?;
    forall d | d in y.peers
      ensures SameLine(y.peers[d], WorkStep(y, junk, ok).peers[d])
    {
      PostLines(y.peers, sends, 0, d);
    }
    OrderFrame(y, WorkStep(y, junk, ok));
  }

  lemma StopOrder(y: System, lost: set<nat>)
    requires OrderInv(y)
    ensures OrderInv(StopStep(y, lost))
  {
    hide UpTags, Line, OnAir;
    forall d | d in y.peers
      ensures SameLine(y.peers[d], StopStep(y, lost).peers[d])
    {
      LinePush(y.peers[d], Flight(Bye(0), 0));
    }
    OrderFrame(y, StopStep(y, lost));
  }

  lemma TellOrder(k: Crypto.Suite, y: System, c: nat, eph: seq<byte>, nonce: seq<byte>, sealed: bool, ok: bool)
    requires c in y.peers && y.peers[c].cl.pc.Fetching? && y.peers[c].cl.keySem > 0 && |k.pub(eph)| == KEY_LEN
    requires OrderInv(y)
    ensures OrderInv(TellStep(k, y, c, eph, nonce, sealed, ok))
  {
    hide OrderInv, UpTags, Line;
    var y' := TellStep(k, y, c, eph, nonce, sealed, ok);
    LineUp(y.peers[c], y'.peers[c]);
    if |y'.history| > |y.history| {
      UpTagsPush(y.peers[c].up, y'.peers[c].up[|y.peers[c].up|]);
      OrderTell(y, y', c, y'.history[|y.history|]);
    } else {
      OrderFrame(y, y');
    }
  }

  /** A client step that sends no chat. */
  lemma PeerOrder(y: System, c: nat, p': Peer)
    requires c in y.peers && Line(p') == Line(y.peers[c]) && UpTags(p'.up) == UpTags(y.peers[c].up)
    requires OrderInv(y)
    ensures OrderInv(y.(peers := y.peers[c := p']))
  {
    hide OrderInv, UpTags, Line;
    OrderFrame(y, y.(peers := y.peers[c := p']));
  }

  lemma PushOrder(y: System, c: nat, p': Peer, f: Flight)
    requires c in y.peers && p'.down == y.peers[c].down && p'.shown == y.peers[c].shown
    requires (p'.up == y.peers[c].up || p'.up == y.peers[c].up + [f]) && !f.pkt.ChatSend?
    requires OrderInv(y)
    ensures OrderInv(y.(peers := y.peers[c := p']))
  {
    hide OrderInv, UpTags, Line;
    UpTagsPush(y.peers[c].up, f);
    LineUp(y.peers[c], p');
    PeerOrder(y, c, p');
  }

  lemma StepOrder(k: Crypto.Suite, y: System, e: Event)
    requires Enabled(k, y, e)
    requires Inv(k, y) && OrderInv(y)
    ensures OrderInv(Step(k, y, e))
  {
    hide Inv, OrderInv, ArriveStep, WorkStep, StopStep, TellStep, AddAccountStep, TakePeer, UpTags, Line;
    match e
    case Open(c, ok) => OpenOrder(y, c, ok);
    case Arrive(c, ok, ok2) => ArriveOrder(k, y, c, ok, ok2);
    case Work(junk, ok) => WorkOrder(y, junk, ok);
    case CloseStream(c) => OrderFrame(y, Step(k, y, e));
    case Drop(c) => OrderFrame(y, Step(k, y, e));
    case Stop(lost) => StopOrder(y, lost);
    case AddAccount(u) => AddAccountOrder(y, u);
    case Take(c, ok) =>
      TakeLine(k, y.peers[c], ok);
      PeerOrder(y, c, TakePeer(k, y.peers[c], ok));
    case Login(c, name, hash, priv, ok) =>
      PushOrder(y, c, LoginPeer(k, y.peers[c], name, hash, priv, ok), Flight(C.LoginPacket(k, y.peers[c].cl, name, hash, priv), 0));
    case EnterChat(c) => PushOrder(y, c, y.peers[c].(cl := C.EnterChat(y.peers[c].cl)), Flight(Bye(0), 0));
    case Ask(c, recipient, text, ok) =>
      PushOrder(y, c, AskPeer(y.peers[c], recipient, text, ok, |y.replies|), Flight(KeyReq(y.peers[c].cl.id, recipient), 0));
    case GiveUp(c) => PushOrder(y, c, y.peers[c].(cl := C.GiveUp(y.peers[c].cl)), Flight(Bye(0), 0));
    case Tell(c, eph, nonce, sealed, ok) => TellOrder(k, y, c, eph, nonce, sealed, ok);
    case Quit(c, ok) =>
      var p := y.peers[c];
      PushOrder(y, c, p.(cl := p.cl.(pc := C.Done), up := Push(p.up, ok, Bye(p.cl.id), 0)), Flight(Bye(p.cl.id), 0));
  }

  lemma AddAccountOrder(y: System, u: UsersFile.User)
    requires OrderInv(y)
    ensures OrderInv(AddAccountStep(y, u))
  {
    hide OrderInv, UpTags, Line;
    OrderFrame(y, AddAccountStep(y, u));
  }

  lemma OpenOrder(y: System, c: nat, ok: bool)
    requires c !in y.peers
    requires OrderInv(y)
    ensures OrderInv(OpenStep(y, c, ok))
  {
    hide OrderInv;
    var f := Flight(C.HelloPacket(), 0);
    assert [f][1..] == [];
    assert UpTags([f]) == [] && UpTags([]) == [];
    assert [] + [f] == [f];
    OrderFrame(y, OpenStep(y, c, ok));
  }

  lemma {:induction false} RunOrder(k: Crypto.Suite, states: seq<System>, events: seq<Event>, i: nat)
    requires Crypto.Lawful(k) && Run(k, states, events) && i < |states|
    ensures OrderInv(states[i])
  {
    hide Inv, Step, Enabled;
    if i > 0 {
      RunInv(k, states, events, i - 1);
      RunOrder(k, states, events, i - 1);
      StepOrder(k, states[i - 1], events[i - 1]);
    }
  }
}
