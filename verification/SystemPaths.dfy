/** Stretches of steps from any state. */
module SystemPaths {
  import opened SystemSpec
  import opened SystemProofs
  import Crypto
  import UsersFile

  ghost predicate Path(k: Crypto.Suite, ys: seq<System>, es: seq<Event>) {
    |ys| == |es| + 1 && forall i | 0 <= i < |es| :: Enabled(k, ys[i], es[i]) && ys[i + 1] == Step(k, ys[i], es[i])
  }

  lemma {:induction false} PathKeeps(k: Crypto.Suite, ys: seq<System>, es: seq<Event>, i: nat)
    requires Crypto.Lawful(k) && Path(k, ys, es) && i < |ys|
    requires Inv(k, ys[0])
    ensures Inv(k, ys[i])
  {
    hide Inv, Step, Enabled;
    if i > 0 {
      PathKeeps(k, ys, es, i - 1);
      StepKeeps(k, ys[i - 1], es[i - 1]);
    }
  }

  lemma PathGrows(k: Crypto.Suite, ys: seq<System>, es: seq<Event>, e: Event)
    requires Path(k, ys, es) && Enabled(k, ys[|es|], e)
    ensures Path(k, ys + [Step(k, ys[|es|], e)], es + [e])
  {
    hide Step, Enabled;
  }

  lemma PathJoins(k: Crypto.Suite, xs: seq<System>, ds: seq<Event>, ys: seq<System>, es: seq<Event>)
    requires Path(k, xs, ds) && Path(k, ys, es) && xs[|ds|] == ys[0]
    ensures Path(k, xs + ys[1..], ds + es) && (xs + ys[1..])[|ds| + |es|] == ys[|es|]
  {
    hide Step, Enabled;
    var zs, fs := xs + ys[1..], ds + es;
    forall i | 0 <= i < |fs|
      ensures Enabled(k, zs[i], fs[i]) && zs[i + 1] == Step(k, zs[i], fs[i])
    {
      if i >= |ds| {
        assert fs[i] == es[i - |ds|] && zs[i] == ys[i - |ds|] && zs[i + 1] == ys[i - |ds| + 1];
      }
    }
  }

  /** A run goes on along a path from its last state. */
  lemma RunGoesOn(k: Crypto.Suite, states: seq<System>, events: seq<Event>, ys: seq<System>, es: seq<Event>)
    requires Run(k, states, events) && Path(k, ys, es) && states[|events|] == ys[0]
    ensures Run(k, states + ys[1..], events + es) && (states + ys[1..])[|events| + |es|] == ys[|es|]
  {
    hide Step, Enabled;
    PathJoins(k, states, events, ys, es);
  }

  /** A path from an initial state is a run. */
  lemma PathIsRun(k: Crypto.Suite, ys: seq<System>, es: seq<Event>)
    requires Path(k, ys, es) && UsersFile.Terminated(ys[0].users) && ys[0] == Init(ys[0].users)
    ensures Run(k, ys, es)
  {
    hide Step, Enabled;
  }

  // ---------- who is not concerned ----------

  /** Client `x` and its session are what they were. */
  ghost predicate Same(y: System, y': System, x: nat) {
    && x in y.peers && x in y'.peers && y'.peers[x] == y.peers[x]
    && x in y.server.sessions && x in y'.server.sessions && y'.server.sessions[x] == y.server.sessions[x]
  }

  ghost predicate Undisturbed(y: System, ys: seq<System>, x: nat) {
    forall h | 0 <= h < |ys| :: Same(y, ys[h], x)
  }

  lemma StillUndisturbed(y: System, xs: seq<System>, ys: seq<System>, x: nat)
    requires xs != [] && ys != [] && xs[|xs| - 1] == ys[0] && Undisturbed(y, xs, x) && Undisturbed(ys[0], ys, x)
    ensures Undisturbed(y, xs + ys[1..], x) && Same(y, ys[|ys| - 1], x)
  {
    assert Same(y, ys[0], x);
    forall h | 0 <= h < |ys|
      ensures Same(y, ys[h], x)
    {
      assert Same(ys[0], ys[h], x);
    }
  }
}
