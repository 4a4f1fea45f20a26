/**
 The auth queue under concurrency: any number of enqueuing and dequeuing threads, interleaved at every
 pointer write, mutex operation and semaphore operation. A thread's program counter says which of those
 it performs next.
 */
module QueueThreads {
  import opened Bytes

  datatype Pc =
    | Outside
    // auth_queue_enqueue(node)
    | Clearing(node: nat)          // before session->next = NULL
    | Locking(node: nat)           // before the lock
    | Testing(node: nat)           // in the critical section, before the test of tail and the first write
    | LinkingFirst(node: nat)      // tail written, head to come
    | Appending(node: nat)         // the old tail's next written, tail to come
    | Linked(node: nat)            // before the unlock
    | Posting(node: nat)           // before sem_post
    // sqmp_auth_queue_dequeue()
    | Waiting                      // in sem_wait
    | HasToken                     // before the lock
    | Reading                      // in the critical section, before the read of head
    | Advancing(first: nat)        // before head = s->next
    | Mending(first: nat)          // before the test of head that may clear tail
    | Detaching(first: nat)        // before s->next = NULL
    | Releasing(result: Option<nat>)
    | Returned(result: Option<nat>, interrupted: bool)

  /** `linked` and `taken` are histories: what enqueues linked in and what dequeues took out, in order. */
  datatype State = State(
    head: Option<nat>,
    tail: Option<nat>,
    next: map<nat, Option<nat>>,
    mutex: Option<nat>,
    sem: nat,
    threads: map<nat, Pc>,
    linked: seq<nat>,
    taken: seq<nat>)

  /** A thread begins a call, is interrupted in sem_wait, or performs its next operation. */
  datatype Event = Enqueue(t: nat, node: nat) | Dequeue(t: nat) | Interrupt(t: nat) | Advance(t: nat)

  function Init(): State {
    State(None, None, map[], None, 0, map[], [], [])
  }

  function PcOf(s: State, t: nat): Pc {
    if t in s.threads then s.threads[t] else Outside
  }

  function Get(next: map<nat, Option<nat>>, n: nat): Option<nat> {
    if n in next then next[n] else None
  }

  /** The sessions linked in and not yet taken out. */
  function Pending(s: State): seq<nat> {
    if |s.taken| <= |s.linked| then s.linked[|s.taken|..] else []
  }

  predicate Idle(pc: Pc) {
    pc.Outside? || pc.Returned?
  }

  /** An enqueue whose links are not complete. */
  predicate Holds(pc: Pc) {
    pc.Clearing? || pc.Locking? || pc.Testing? || pc.LinkingFirst? || pc.Appending?
  }

  predicate InSection(pc: Pc) {
    || pc.Testing? || pc.LinkingFirst? || pc.Appending? || pc.Linked?
    || pc.Reading? || pc.Advancing? || pc.Mending? || pc.Detaching? || pc.Releasing?
  }

  predicate LinkedNotPosted(pc: Pc) {
    pc.Linked? || pc.Posting?
  }

  predicate HoldsToken(pc: Pc) {
    pc.HasToken? || pc.Reading? || pc.Advancing? || pc.Mending? || pc.Detaching?
  }

  /** Nobody is enqueuing `node` and it is not linked: what auth_queue_enqueue demands of its callers. */
  predicate Free(s: State, node: nat) {
    node !in Pending(s) && forall t | t in s.threads && Holds(s.threads[t]) :: s.threads[t].node != node
  }

  predicate Enabled(s: State, e: Event) {
    var pc := PcOf(s, e.t);
    match e
    case Enqueue(_, node) => Idle(pc) && Free(s, node)
    case Dequeue(_) => Idle(pc)
    case Interrupt(_) => pc.Waiting?
    case Advance(_) =>
      && !Idle(pc)
      && (pc.Locking? || pc.HasToken? ==> s.mutex.None?)
      && (pc.Waiting? ==> s.sem > 0)
  }

  function Goto(s: State, t: nat, pc: Pc): State {
    s.(threads := s.threads[t := pc])
  }

  function Next(s: State, e: Event): State
    requires Enabled(s, e)
  {
    match e
    case Enqueue(t, node) => Goto(s, t, Clearing(node))
    case Dequeue(t) => Goto(s, t, Waiting)
    case Interrupt(t) => Goto(s, t, Returned(None, true))
    case Advance(t) => Step(s, t)
  }

  function Step(s: State, t: nat): State
    requires Enabled(s, Advance(t))
  {
    match PcOf(s, t)
    case Clearing(n) => Goto(s.(next := s.next[n := None]), t, Locking(n))
    case Locking(n) => Goto(s.(mutex := Some(t)), t, Testing(n))
    case Testing(n) =>
      if s.tail.None? then Goto(s.(tail := Some(n)), t, LinkingFirst(n))
      else Goto(s.(next := s.next[s.tail.value := Some(n)]), t, Appending(n))
    case LinkingFirst(n) => Goto(s.(head := Some(n), linked := s.linked + [n]), t, Linked(n))
    case Appending(n) => Goto(s.(tail := Some(n), linked := s.linked + [n]), t, Linked(n))
    case Linked(n) => Goto(s.(mutex := None), t, Posting(n))
    case Posting(n) => Goto(s.(sem := s.sem + 1), t, Outside)
    case Waiting => Goto(s.(sem := s.sem - 1), t, HasToken)
    case HasToken => Goto(s.(mutex := Some(t)), t, Reading)
    case Reading => Goto(s, t, if s.head.None? then Releasing(None) else Advancing(s.head.value))
    case Advancing(x) => Goto(s.(head := Get(s.next, x)), t, Mending(x))
    case Mending(x) => Goto(if s.head.None? then s.(tail := None) else s, t, Detaching(x))
    case Detaching(x) => Goto(s.(next := s.next[x := None], taken := s.taken + [x]), t, Releasing(Some(x)))
    case Releasing(r) => Goto(s.(mutex := None), t, Returned(r, false))
  }

  ghost predicate Run(states: seq<State>, events: seq<Event>) {
    && |states| == |events| + 1
    && states[0] == Init()
    && forall i | 0 <= i < |events| :: Enabled(states[i], events[i]) && states[i + 1] == Next(states[i], events[i])
  }

  // ---------- the invariant ----------

  predicate Chain(q: seq<nat>, next: map<nat, Option<nat>>) {
    forall i | 0 <= i < |q| - 1 :: Get(next, q[i]) == Some(q[i + 1])
  }

  function First(q: seq<nat>): Option<nat> {
    if q == [] then None else Some(q[0])
  }

  function Last(q: seq<nat>): Option<nat> {
    if q == [] then None else Some(q[|q| - 1])
  }

  /** The pointers represent `q`. */
  predicate Represents(s: State, q: seq<nat>) {
    && s.head == First(q)
    && s.tail == Last(q)
    && (q != [] ==> Get(s.next, q[|q| - 1]) == None)
  }

  /** The pc of the thread in the critical section, if there is one. */
  function Section(s: State): Pc {
    if s.mutex.Some? then PcOf(s, s.mutex.value) else Outside
  }

  /** The pointers represent `q`, up to the writes the thread in the critical section has still to make. */
  predicate Shaped(s: State, q: seq<nat>, pc: Pc) {
    && NoDup(q)
    && Chain(q, s.next)
    && match pc
       case LinkingFirst(n) => q == [] && s.head == None && s.tail == Some(n)
       case Appending(n) => q != [] && s.head == First(q) && s.tail == Last(q) && Get(s.next, q[|q| - 1]) == Some(n)
       case Advancing(x) => q != [] && q[0] == x && Represents(s, q)
       case Mending(x) => q != [] && q[0] == x && s.head == First(q[1..]) && s.tail == Last(q) && Get(s.next, q[|q| - 1]) == None
       case Detaching(x) => q != [] && q[0] == x && s.head == First(q[1..]) && s.tail == Last(q[1..]) && Get(s.next, q[|q| - 1]) == None
       case _ => Represents(s, q)
  }

  predicate Exclusive(s: State) {
    && (forall t | t in s.threads :: InSection(s.threads[t]) ==> s.mutex == Some(t))
    && (s.mutex.Some? ==> InSection(PcOf(s, s.mutex.value)))
  }

  /** A node being enqueued is not linked, and its next pointer is clear. */
  predicate NodesClear(s: State) {
    forall t | t in s.threads && Holds(s.threads[t]) ::
      s.threads[t].node !in Pending(s) && (!s.threads[t].Clearing? ==> Get(s.next, s.threads[t].node) == None)
  }

  /** No two threads enqueue the same node. */
  predicate NodesApart(s: State) {
    forall t, u | t in s.threads && u in s.threads && t != u && Holds(s.threads[t]) && Holds(s.threads[u]) ::
      s.threads[t].node != s.threads[u].node
  }

  function Unposted(s: State): set<nat> {
    set t | t in s.threads && LinkedNotPosted(s.threads[t])
  }

  function Tokens(s: State): set<nat> {
    set t | t in s.threads && HoldsToken(s.threads[t])
  }

  /** Every linked session is accounted for by the semaphore, a post to come, or a token taken. */
  predicate Accounted(s: State) {
    |Pending(s)| == s.sem + |Unposted(s)| + |Tokens(s)|
  }

  predicate InOrder(s: State) {
    s.taken <= s.linked
  }

  /** A dequeue returns nothing exactly when it was interrupted. */
  predicate NoneOnlyInterrupted(s: State) {
    forall t | t in s.threads ::
      && s.threads[t] != Releasing(None)
      && (s.threads[t].Returned? ==> (s.threads[t].result.None? <==> s.threads[t].interrupted))
  }

  predicate Inv(s: State) {
    && Exclusive(s)
    && NodesClear(s)
    && NodesApart(s)
    && Accounted(s)
    && Shaped(s, Pending(s), Section(s))
    && InOrder(s)
    && NoneOnlyInterrupted(s)
  }

  // ---------- every step keeps it ----------

  lemma ExclusiveKept(s: State, e: Event)
    requires Exclusive(s) && Enabled(s, e)
    ensures Exclusive(Next(s, e))
  {
    hide Free, Get;
  }

  /** The two steps that write the histories. */
  lemma LogMoves(s: State, e: Event)
    requires Enabled(s, e)
    ensures var pc, s' := PcOf(s, e.t), Next(s, e);
            && s'.linked == (if e.Advance? && (pc.LinkingFirst? || pc.Appending?) then s.linked + [pc.node] else s.linked)
            && s'.taken == (if e.Advance? && pc.Detaching? then s.taken + [pc.first] else s.taken)
  {
    hide Free, Get;
  }

  /** How the queue changes. */
  lemma PendingMoves(s: State, e: Event)
    requires InOrder(s) && Enabled(s, e) && Shaped(s, Pending(s), Section(s)) && Exclusive(s)
    ensures InOrder(Next(s, e))
    ensures var pc := PcOf(s, e.t);
            Pending(Next(s, e)) ==
            if e.Advance? && (pc.LinkingFirst? || pc.Appending?) then Pending(s) + [pc.node]
            else if e.Advance? && pc.Detaching? then Pending(s)[1..]
            else Pending(s)
  {
    hide Next, Chain, NoDup, Represents;
    LogMoves(s, e);
  }

  lemma OneApart(a: set<nat>, b: set<nat>, t: nat)
    requires a - {t} == b - {t}
    ensures |b| == |a| - (if t in a then 1 else 0) + (if t in b then 1 else 0)
  {
    assert a == (a - {t}) + (if t in a then {t} else {});
    assert b == (b - {t}) + (if t in b then {t} else {});
  }

  /** Moving one thread changes a count of threads by at most one. */
  lemma CountMoves(s: State, s': State, t: nat)
    requires s'.threads == s.threads[t := PcOf(s', t)]
    ensures |Unposted(s')| == |Unposted(s)| - (if LinkedNotPosted(PcOf(s, t)) then 1 else 0)
                                            + (if LinkedNotPosted(PcOf(s', t)) then 1 else 0)
    ensures |Tokens(s')| == |Tokens(s)| - (if HoldsToken(PcOf(s, t)) then 1 else 0)
                                        + (if HoldsToken(PcOf(s', t)) then 1 else 0)
  {
    OneApart(Unposted(s), Unposted(s'), t);
    OneApart(Tokens(s), Tokens(s'), t);
  }

  lemma AccountKept(s: State, e: Event)
    requires Inv(s) && Enabled(s, e)
    ensures Accounted(Next(s, e))
  {
    hide Pending, Unposted, Tokens, Exclusive, NodesClear, NodesApart, Represents, Chain, NoDup, InOrder, NoneOnlyInterrupted, Shaped, Free;
    PendingMoves(s, e);
    CountMoves(s, Next(s, e), e.t);
    DequeuerFinds(s, e.t);
  }

  /** Whoever took a token finds a session in the critical section, and it is the first one. */
  lemma DequeuerFinds(s: State, t: nat)
    requires Inv(s)
    ensures PcOf(s, t).Reading? ==> Pending(s) != [] && s.head == Some(Pending(s)[0])
    ensures PcOf(s, t).Detaching? ==> Pending(s) != []
  {
    if PcOf(s, t).Reading? || PcOf(s, t).Detaching? {
      assert t in Tokens(s);
    }
  }

  /** A thread that is enqueuing a node after a step was enqueuing it before, or just began. */
  lemma HoldMoves(s: State, e: Event)
    requires Enabled(s, e)
    ensures var pc, pc' := PcOf(s, e.t), PcOf(Next(s, e), e.t);
            && Next(s, e).threads == s.threads[e.t := pc']
            && (Holds(pc') ==> if e.Enqueue? then pc' == Clearing(e.node) else Holds(pc) && pc'.node == pc.node)
  {
    hide Free, Get;
  }

  lemma ApartKept(s: State, e: Event)
    requires NodesApart(s) && Enabled(s, e)
    ensures NodesApart(Next(s, e))
  {
    hide Step, Pending;
    HoldMoves(s, e);
  }

  /** No step makes an unlinked session point anywhere. */
  lemma NextMoves(s: State, e: Event, n: nat)
    requires Exclusive(s) && Shaped(s, Pending(s), Section(s)) && Enabled(s, e) && n !in Pending(s)
    ensures Get(Next(s, e).next, n) == Get(s.next, n)
            || Get(Next(s, e).next, n) == None
  {
    hide Pending, Chain, NoDup, Free;
    if e.Advance? && PcOf(s, e.t).Testing? {
      assert Section(s) == PcOf(s, e.t);
      assert s.tail.Some? ==> s.tail.value in Pending(s);
    }
  }

  lemma ClearKept(s: State, e: Event)
    requires Exclusive(s) && InOrder(s) && NodesClear(s) && NodesApart(s) && Shaped(s, Pending(s), Section(s)) && Enabled(s, e)
    ensures NodesClear(Next(s, e))
  {
    hide Pending, InOrder, Chain, NoDup, Exclusive, Shaped;
    PendingMoves(s, e);
    HoldMoves(s, e);
    var s' := Next(s, e);
    forall t | t in s'.threads && Holds(s'.threads[t])
      ensures s'.threads[t].node !in Pending(s') && (!s'.threads[t].Clearing? ==> Get(s'.next, s'.threads[t].node) == None)
    {
      NextMoves(s, e, s'.threads[t].node);
    }
  }

  // ---------- the pointers ----------

  /** A thread outside the critical section, or one entering or leaving it, touches no linked session. */
  lemma ShapeOutside(s: State, s': State, q: seq<nat>, pc: Pc, pc': Pc, n: nat)
    requires Shaped(s, q, pc)
    requires s'.head == s.head && s'.tail == s.tail && (s'.next == s.next || (n !in q && s'.next == s.next[n := None]))
    requires pc' == pc || (Intact(pc) && Intact(pc'))
    ensures Shaped(s', q, pc')
  {
  }

  /** The pointers are complete at this point of the critical section. */
  predicate Intact(pc: Pc) {
    !(pc.LinkingFirst? || pc.Appending? || pc.Advancing? || pc.Mending? || pc.Detaching?)
  }

  lemma ShapeTest(s: State, t: nat, q: seq<nat>, n: nat)
    requires Shaped(s, q, Testing(n)) && n !in q && PcOf(s, t) == Testing(n)
    ensures Shaped(Step(s, t), q, PcOf(Step(s, t), t))
  {
  }

  lemma ShapeLink(s: State, t: nat, q: seq<nat>, pc: Pc)
    requires (pc.LinkingFirst? || pc.Appending?) && PcOf(s, t) == pc
    requires Shaped(s, q, pc) && pc.node !in q && Get(s.next, pc.node) == None
    ensures Shaped(Step(s, t), q + [pc.node], Linked(pc.node))
  {
  }

  lemma ShapeRead(s: State, t: nat, q: seq<nat>)
    requires Shaped(s, q, Reading) && q != [] && PcOf(s, t) == Reading
    ensures Shaped(Step(s, t), q, PcOf(Step(s, t), t))
  {
  }

  lemma ShapeUnlink(s: State, t: nat, q: seq<nat>, pc: Pc)
    requires (pc.Advancing? || pc.Mending?) && PcOf(s, t) == pc
    requires Shaped(s, q, pc)
    ensures Shaped(Step(s, t), q, PcOf(Step(s, t), t))
  {
    assert |q| > 1 ==> Get(s.next, q[0]) == Some(q[1]);
  }

  lemma ShapeDetach(s: State, t: nat, q: seq<nat>, x: nat)
    requires Shaped(s, q, Detaching(x)) && PcOf(s, t) == Detaching(x)
    ensures q != [] && Shaped(Step(s, t), q[1..], Releasing(Some(x)))
  {
    var q', next' := q[1..], Step(s, t).next;
    forall i | 0 <= i < |q'| - 1
      ensures Get(next', q'[i]) == Some(q'[i + 1])
    {
      assert q'[i] == q[i + 1] && q'[i + 1] == q[i + 2];
    }
  }

  /** Whose pc counts as the critical section's, before and after a step. */
  lemma SectionMoves(s: State, e: Event)
    requires Exclusive(s) && Enabled(s, e)
    ensures var pc, pc', s' := PcOf(s, e.t), PcOf(Next(s, e), e.t), Next(s, e);
            if InSection(pc) then Section(s) == pc && Section(s') == (if InSection(pc') then pc' else Outside)
            else Section(s') == Section(s) || (Intact(Section(s)) && Intact(Section(s')))
  {
    hide Free;
  }

  lemma ShapeKept(s: State, e: Event)
    requires Inv(s) && Enabled(s, e)
    ensures Shaped(Next(s, e), Pending(Next(s, e)), Section(Next(s, e)))
  {
    hide Pending, Section, Exclusive, Unposted, Tokens, Represents, Chain, NoDup, InOrder, NoneOnlyInterrupted, Shaped, Free;
    PendingMoves(s, e);
    SectionMoves(s, e);
    DequeuerFinds(s, e.t);
    var s', q, t, pc := Next(s, e), Pending(s), e.t, PcOf(s, e.t);
    if e.Advance? && (pc.Testing? || pc.LinkingFirst? || pc.Appending?) {
      if pc.Testing? { ShapeTest(s, t, q, pc.node); } else { ShapeLink(s, t, q, pc); }
    } else if e.Advance? && pc.Reading? {
      ShapeRead(s, t, q);
    } else if e.Advance? && (pc.Advancing? || pc.Mending?) {
      ShapeUnlink(s, t, q, pc);
    } else if e.Advance? && pc.Detaching? {
      ShapeDetach(s, t, q, pc.first);
    } else {
      ShapeOutside(s, s', q, Section(s), Section(s'), if pc.Clearing? then pc.node else 0);
    }
  }

  lemma StepKeeps(s: State, e: Event)
    requires Inv(s) && Enabled(s, e)
    ensures Inv(Next(s, e))
  {
    hide Pending, Unposted, Tokens, Exclusive, NodesClear, NodesApart, Shaped, InOrder, Accounted, Free;
    ExclusiveKept(s, e);
    PendingMoves(s, e);
    ClearKept(s, e);
    ApartKept(s, e);
    AccountKept(s, e);
    ShapeKept(s, e);
    DequeuerFinds(s, e.t);
  }

  lemma {:induction false} RunInv(states: seq<State>, events: seq<Event>, i: nat)
    requires Run(states, events) && i < |states|
    ensures Inv(states[i])
  {
    if i > 0 {
      RunInv(states, events, i - 1);
      StepKeeps(states[i - 1], events[i - 1]);
    }
  }

  // ---------- over whole runs ----------

  /**
   No lost wake-ups. In every reachable state the queue length is the semaphore's value plus the links not
   yet posted plus the tokens held, so a dequeue returns nothing exactly when its wait was interrupted.
   */
  lemma NoLostWakeups(states: seq<State>, events: seq<Event>, i: nat, t: nat)
    requires Run(states, events) && i < |states|
    ensures |Pending(states[i])| == states[i].sem + |Unposted(states[i])| + |Tokens(states[i])|
    ensures PcOf(states[i], t).Returned? ==> (PcOf(states[i], t).result.None? <==> PcOf(states[i], t).interrupted)
  {
    RunInv(states, events, i);
  }

  /** At most one thread is in the critical section. */
  lemma MutualExclusion(states: seq<State>, events: seq<Event>, i: nat, t: nat, u: nat)
    requires Run(states, events) && i < |states|
    requires InSection(PcOf(states[i], t)) && InSection(PcOf(states[i], u))
    ensures t == u
  {
    RunInv(states, events, i);
  }

  /** While sessions are pending and a thread waits for one, some thread can go on. */
  lemma NeverStuck(states: seq<State>, events: seq<Event>, i: nat, w: nat) returns (t: nat)
    requires Run(states, events) && i < |states|
    requires Pending(states[i]) != [] && PcOf(states[i], w).Waiting?
    ensures Enabled(states[i], Advance(t))
  {
    var s := states[i];
    RunInv(states, events, i);
    if s.mutex.Some? {
      return s.mutex.value;
    }
    if s.sem > 0 {
      return w;
    }
    if Unposted(s) != {} {
      t :| t in Unposted(s);
    } else {
      assert Tokens(s) != {};
      t :| t in Tokens(s);
    }
  }

  lemma {:induction false} RunGrows(states: seq<State>, events: seq<Event>, i: nat, j: nat)
    requires Run(states, events) && i <= j < |states|
    ensures states[i].linked <= states[j].linked && states[i].taken <= states[j].taken
    decreases j - i
  {
    hide Next, Enabled;
    if i < j {
      RunGrows(states, events, i, j - 1);
      LogMoves(states[j - 1], events[j - 1]);
    }
  }

  /** First in, first out, whatever the interleaving: the k-th session linked in is the k-th taken out. */
  lemma FirstInFirstOut(states: seq<State>, events: seq<Event>, i: nat, j: nat, k: nat)
    requires Run(states, events) && i < |states| && j < |states|
    requires k < |states[i].linked| && k < |states[j].taken|
    ensures states[j].taken[k] == states[i].linked[k]
  {
    RunInv(states, events, i);
    RunInv(states, events, j);
    if i <= j { RunGrows(states, events, i, j); } else { RunGrows(states, events, j, i); }
  }

  /**
   The calls take effect one at a time on a FIFO sequence: an enqueue appends its session, a dequeue removes
   the first and goes on to return that one, and no other step of any thread changes the sequence.
   */
  lemma RefinesQueue(states: seq<State>, events: seq<Event>, i: nat)
    requires Run(states, events) && i < |events|
    ensures var q, q', e := Pending(states[i]), Pending(states[i + 1]), events[i];
            var pc, pc' := PcOf(states[i], e.t), PcOf(states[i + 1], e.t);
            if e.Advance? && Holds(pc) && !Holds(pc') then q' == q + [pc.node]
            else if e.Advance? && HoldsToken(pc) && !HoldsToken(pc') then
              q != [] && q' == q[1..] && pc' == Releasing(Some(q[0]))
            else q' == q
  {
    hide Pending, Section, Exclusive, NodesClear, NodesApart, Accounted, InOrder, NoneOnlyInterrupted, Shaped, Free;
    RunInv(states, events, i);
    PendingMoves(states[i], events[i]);
    DequeuerFinds(states[i], events[i].t);
    Reaches(states[i], events[i].t);
  }

  /** The session a dequeue is about to take out is the first. */
  lemma Reaches(s: State, t: nat)
    requires Inv(s)
    ensures PcOf(s, t).Detaching? ==> Pending(s) != [] && PcOf(s, t).first == Pending(s)[0]
  {
  }

  /** Why the node must not be linked already: clearing its next pointer cuts off whatever is behind it. */
  lemma RelinkingCuts(s: State, t: nat, i: nat)
    requires i + 1 < |Pending(s)| && PcOf(s, t) == Clearing(Pending(s)[i])
    ensures !Chain(Pending(s), Step(s, t).next)
  {
    var q, next := Pending(s), Step(s, t).next;
    assert Get(next, q[i]) != Some(q[i + 1]);
  }

  /** A thread's pc changes by its own events only. */
  lemma {:induction false} Untouched(states: seq<State>, events: seq<Event>, i: nat, j: nat, t: nat)
    requires Run(states, events) && i <= j < |states|
    requires forall h | i <= h < j :: events[h].t != t
    ensures PcOf(states[j], t) == PcOf(states[i], t)
    decreases j - i
  {
    hide Next, Enabled;
    if i < j {
      Untouched(states, events, i, j - 1, t);
      OwnStep(states[j - 1], events[j - 1], t);
    }
  }

  lemma OwnStep(s: State, e: Event, t: nat)
    requires Enabled(s, e) && e.t != t
    ensures PcOf(Next(s, e), t) == PcOf(s, t)
  {
    hide Free, Get;
  }

  lemma Returns(s: State, e: Event)
    requires Enabled(s, e) && PcOf(s, e.t).Releasing?
    ensures e.Advance? && PcOf(Next(s, e), e.t) == Returned(PcOf(s, e.t).result, false)
  {
    hide Free, Get;
  }

  /**
   Whatever is enqueued meanwhile, a session with k others ahead of it is what dequeue k + 1 from then on takes
   out (at step h) and what that call returns (at the next step of its thread, step r).
   */
  lemma ComesOutInTurn(states: seq<State>, events: seq<Event>, i: nat, k: nat, h: nat, r: nat)
    requires Run(states, events) && i <= h < r < |events| && k < |Pending(states[i])|
    requires |states[h].taken| == |states[i].taken| + k && |states[h + 1].taken| == |states[i].taken| + k + 1
    requires events[r].t == events[h].t && forall j | h < j < r :: events[j].t != events[h].t
    ensures PcOf(states[r + 1], events[h].t) == Returned(Some(Pending(states[i])[k]), false)
  {
    var t := events[h].t;
    TakenInTurn(states, events, i, k, h);
    Untouched(states, events, h + 1, r, t);
    hide Next, Enabled, Pending;
    assert Enabled(states[r], events[r]);
    Returns(states[r], events[r]);
  }

  lemma TakenInTurn(states: seq<State>, events: seq<Event>, i: nat, k: nat, h: nat)
    requires Run(states, events) && i <= h < |events| && k < |Pending(states[i])|
    requires |states[h].taken| == |states[i].taken| + k && |states[h + 1].taken| == |states[i].taken| + k + 1
    ensures PcOf(states[h + 1], events[h].t) == Releasing(Some(Pending(states[i])[k]))
  {
    hide Next, Enabled;
    var t := events[h].t;
    RunInv(states, events, i);
    var at := |states[i].taken| + k;
    FirstInFirstOut(states, events, i, h + 1, at);
    assert states[i].linked[at] == Pending(states[i])[k];
    TakesLast(states[h], events[h]);
  }

  lemma TakesLast(s: State, e: Event)
    requires Enabled(s, e) && |Next(s, e).taken| == |s.taken| + 1
    ensures PcOf(Next(s, e), e.t) == Releasing(Some(Next(s, e).taken[|s.taken|]))
  {
    hide Free, Get;
  }
}
