/** What holds in every run of the forward manager: any interleaving of any number of
    `StartForward` calls, connection handlers, timer callbacks and shutdowns. */
module ForwardRuns {
  import opened Wrappers
  import opened ForwardState
  import opened ForwardProtocol
  import opened ForwardSafety

  ghost predicate IsRun(c: Settings, steps: seq<Step>)
    decreases |steps|, 0
  {
    steps == [] ||
    var n := |steps| - 1;
    IsRun(c, steps[..n]) && Enabled(After(c, steps[..n]), steps[n])
  }

  /** The state a run ends in. Every such state satisfies the invariant. */
  ghost function After(c: Settings, steps: seq<Step>): (s: State)
    requires IsRun(c, steps)
    ensures Inv(s)
    decreases |steps|, 1
  {
    if steps == [] then Init(c)
    else
      var n := |steps| - 1;
      var s := After(c, steps[..n]);
      StepKeepsInv(s, steps[n]);
      Apply(s, steps[n])
  }

  lemma Snoc(c: Settings, steps: seq<Step>, step: Step)
    requires IsRun(c, steps) && Enabled(After(c, steps), step)
    ensures IsRun(c, steps + [step]) && After(c, steps + [step]) == Apply(After(c, steps), step)
  {
    var longer := steps + [step];
    assert longer[..|longer| - 1] == steps && longer[|longer| - 1] == step;
  }

  lemma FrontIsRun(c: Settings, steps: seq<Step>)
    requires IsRun(c, steps) && steps != []
    ensures IsRun(c, steps[..|steps| - 1])
  {
  }

  lemma {:induction false} PrefixIsRun(c: Settings, steps: seq<Step>, k: nat)
    requires IsRun(c, steps) && k <= |steps|
    ensures IsRun(c, steps[..k])
    decreases |steps|
  {
    if k < |steps| {
      var front := steps[..|steps| - 1];
      FrontIsRun(c, steps);
      PrefixIsRun(c, front, k);
      assert front[..k] == steps[..k];
    } else {
      assert steps[..k] == steps;
    }
  }

  /** The state before step `k`. */
  ghost function At(c: Settings, steps: seq<Step>, k: nat): (s: State)
    requires IsRun(c, steps) && k <= |steps|
    ensures Inv(s)
  {
    PrefixIsRun(c, steps, k);
    After(c, steps[..k])
  }

  lemma AtStep(c: Settings, steps: seq<Step>, k: nat)
    requires IsRun(c, steps) && k < |steps|
    ensures Enabled(At(c, steps, k), steps[k])
    ensures At(c, steps, k + 1) == Apply(At(c, steps, k), steps[k])
  {
    PrefixIsRun(c, steps, k + 1);
    PrefixStep(c, steps, k);
  }

  lemma PrefixStep(c: Settings, steps: seq<Step>, k: nat)
    requires k < |steps| && IsRun(c, steps[..k + 1])
    ensures IsRun(c, steps[..k]) && Enabled(After(c, steps[..k]), steps[k])
    ensures After(c, steps[..k + 1]) == Apply(After(c, steps[..k]), steps[k])
  {
    var p := steps[..k + 1];
    assert |p| - 1 == k && p[..k] == steps[..k] && p[k] == steps[k];
    LastStep(c, p, k);
  }

  lemma LastStep(c: Settings, steps: seq<Step>, n: nat)
    requires IsRun(c, steps) && |steps| == n + 1
    ensures IsRun(c, steps[..n]) && Enabled(After(c, steps[..n]), steps[n])
    ensures After(c, steps) == Apply(After(c, steps[..n]), steps[n])
  {
  }

  lemma AtEnd(c: Settings, steps: seq<Step>)
    requires IsRun(c, steps)
    ensures At(c, steps, |steps|) == After(c, steps)
  {
    assert steps[..|steps|] == steps;
  }

  // ---------------------------------------------------------------- no address is stranded

  /** The callbacks armed by state `sid` that can still run and carry its current generation. */
  ghost function CurrentCallbacks(t: Tables, sid: nat): set<nat>
    requires sid < |t.states|
  {
    set i | 0 <= i < |t.timers| && t.timers[i].owner == sid && t.timers[i].gen == t.states[sid].generation
            && (t.timers[i].status == Armed || t.timers[i].status == Fired)
  }

  /** The address counts exactly its registered handlers; if it has none, exactly one callback
      with its current generation is armed or in flight; if it has some, no timer of it is armed. */
  ghost predicate Supervised(s: State, vip: Addr)
    requires InRange(s.t) && vip in s.t.vipStates
  {
    var sid := s.t.vipStates[vip];
    && s.t.states[sid].activeConns == |ServingOn(s.handlers, sid)|
    && (s.t.states[sid].activeConns == 0 ==> |CurrentCallbacks(s.t, sid)| == 1)
    && (s.t.states[sid].activeConns > 0 ==>
          forall i :: 0 <= i < |s.t.timers| && s.t.timers[i].owner == sid ==> s.t.timers[i].status != Armed)
  }

  lemma OneCallback(t: Tables, sid: nat)
    requires TimersOk(t) && sid < |t.states| && t.states[sid].activeConns == 0 && Pending(t, sid)
    ensures |CurrentCallbacks(t, sid)| == 1
  {
    assert PointerOk(t, sid);
    var i := t.states[sid].timer.value;
    forall j | j in CurrentCallbacks(t, sid) ensures j == i {
      assert TimerOk(t, j);
    }
    assert CurrentCallbacks(t, sid) == {i};
  }

  /** No reachable state strands a tracked address: all of them but the one being torn down are
      supervised. */
  lemma NoAddressStranded(c: Settings, steps: seq<Step>, vip: Addr)
    requires IsRun(c, steps)
    requires vip in After(c, steps).t.vipStates && After(c, steps).expiring != Some(vip)
    ensures Supervised(After(c, steps), vip)
  {
    InvSupervises(After(c, steps), vip);
  }

  lemma InvSupervises(s: State, vip: Addr)
    requires Inv(s) && vip in s.t.vipStates && s.expiring != Some(vip)
    ensures Supervised(s, vip)
  {
    var sid := s.t.vipStates[vip];
    if s.t.states[sid].activeConns == 0 {
      OneCallback(s.t, sid);
    } else {
      forall i | 0 <= i < |s.t.timers| && s.t.timers[i].owner == sid ensures s.t.timers[i].status != Armed {
        assert TimerOk(s.t, i);
      }
    }
  }

  // ---------------------------------------------------------------- every listener is accounted for

  /** In every reachable state, a listener that is still open is entered under its own key or held
      by exactly one `StartForward` call, never both; and two keys never share a listener. */
  lemma ListenersAccountedFor(c: Settings, steps: seq<Step>, l: nat)
    requires IsRun(c, steps)
    requires l < |After(c, steps).t.listeners|
    ensures var s := After(c, steps);
      var holders := set d | 0 <= d < |s.starts| && Holds(s.starts[d], l);
      && (s.t.listeners[l].open ==> if Entered(s.t, l) then holders == {} else |holders| == 1)
      && (forall k :: k in s.t.entries && s.t.entries[k] == l ==> k == s.t.listeners[l].key)
  {
    var s := After(c, steps);
    var holders := set d | 0 <= d < |s.starts| && Holds(s.starts[d], l);
    if s.t.listeners[l].open {
      if Entered(s.t, l) {
        assert forall d :: 0 <= d < |s.starts| ==> !Holds(s.starts[d], l);
      } else {
        var d :| 0 <= d < |s.starts| && Holds(s.starts[d], l);
        forall e | e in holders ensures e == d {
          assert Holds(s.starts[e], l);
        }
        assert holders == {d};
      }
    }
  }

  // ---------------------------------------------------------------- expiry only after a full idle period

  predicate Tracks(s: State, vip: Addr, sid: nat) {
    vip in s.t.vipStates && s.t.vipStates[vip] == sid
  }

  /** The step touches the address that `sid` tracks, or connects to or disconnects from `sid`. */
  predicate Activity(s: State, step: Step, sid: nat)
    requires Enabled(s, step)
  {
    match step
    case TouchVip(vip) => Tracks(s, vip, sid)
    case StartCheck(key) => key in s.t.entries && Tracks(s, key.vip, sid)
    case StartRecheck(c) => Tracks(s, s.starts[c].bkey.vip, sid)
    case RegisterConn(h) => s.handlers[h].sid == sid
    case DeregisterConn(h) => s.handlers[h].sid == sid
    case _ => false
  }

  /** How tables may change in one step: states and timers are only added, generations only grow,
      a forgotten state never comes back, and at most one timer is armed, with its state's new
      generation and due a full period later. */
  ghost predicate Evolves(t: Tables, t': Tables) {
    && t'.settings == t.settings && t'.now >= t.now
    && |t.states| <= |t'.states|
    && (forall i :: 0 <= i < |t.states| ==> t'.states[i].generation >= t.states[i].generation)
    && (forall v :: v in t'.vipStates && t'.vipStates[v] < |t.states| ==> v in t.vipStates && t.vipStates[v] == t'.vipStates[v])
    && |t.timers| <= |t'.timers| <= |t.timers| + 1
    && (forall i :: 0 <= i < |t.timers| ==> t'.timers[i] == t.timers[i].(status := t'.timers[i].status))
    && (|t'.timers| > |t.timers| ==> FreshTimer(t, t', t'.timers[|t.timers|]))
  }

  ghost predicate FreshTimer(t: Tables, t': Tables, timer: Timer) {
    && timer.owner < |t'.states| && timer.gen == t'.states[timer.owner].generation
    && timer.due == t.now + t.settings.idleTimeout
  }

  lemma TouchEvolves(t: Tables, vip: Addr)
    requires InRange(t)
    ensures Evolves(t, Touch(t, vip))
  {
  }

  lemma InstallEvolves(t: Tables, key: ForwardKey, l: nat)
    requires InRange(t) && l < |t.listeners|
    ensures Evolves(t, Install(t, key, l))
  {
    var t1 := AddEntry(t, key, l);
    assert Evolves(t, t1) && t1.timers == t.timers;
    TouchEvolves(t1, key.vip);
  }

  lemma ConnEvolves(t: Tables, sid: nat, vip: Addr)
    requires sid < |t.states|
    ensures Evolves(t, Register(t, sid)) && Evolves(t, Deregister(t, sid, vip))
  {
  }

  lemma DropEvolves(t: Tables, ks: set<ForwardKey>, vips: set<Addr>)
    requires InRange(t)
    ensures Evolves(t, DropStates(DropEntries(t, ks), vips))
  {
  }

  lemma StepEvolves(s: State, step: Step)
    requires Inv(s) && Enabled(s, step)
    ensures Evolves(s.t, Apply(s, step).t)
  {
    match step
    case StartCheck(key) => TouchEvolves(s.t, key.vip);
    case StartRecheck(c) =>
      TouchEvolves(s.t, s.starts[c].bkey.vip);
      InstallEvolves(s.t, s.starts[c].bkey, s.starts[c].held);
    case TouchVip(vip) => TouchEvolves(s.t, vip);
    case RegisterConn(h) => ConnEvolves(s.t, s.handlers[h].sid, 0);
    case DeregisterConn(h) => ConnEvolves(s.t, s.handlers[h].sid, s.handlers[h].vip);
    case StopContext(ctx) => DropEvolves(s.t, KeysOf(s.t, ctx), VipsOf(KeysOf(s.t, ctx)));
    case StopAll => DropEvolves(s.t, s.t.entries.Keys, s.t.vipStates.Keys);
    case _ =>
  }

  /** The generation is unchanged and nobody is connected afterwards. */
  ghost predicate Undisturbed(t: Tables, t': Tables, sid: nat) {
    sid < |t.states| && sid < |t'.states|
    && t'.states[sid].generation == t.states[sid].generation && t'.states[sid].activeConns <= 0
  }

  lemma TouchDisturbs(t: Tables, vip: Addr, sid: nat)
    requires StatesOk(t) && Undisturbed(t, Touch(t, vip), sid)
    ensures t.states[sid].activeConns <= 0 && !(vip in t.vipStates && t.vipStates[vip] == sid)
  {
  }

  lemma InstallDisturbs(t: Tables, key: ForwardKey, l: nat, sid: nat)
    requires StatesOk(t) && key !in t.entries && l < |t.listeners| && Undisturbed(t, Install(t, key, l), sid)
    ensures t.states[sid].activeConns <= 0 && !(key.vip in t.vipStates && t.vipStates[key.vip] == sid)
  {
    AddEntryStates(t, key, l);
    TouchDisturbs(AddEntry(t, key, l), key.vip, sid);
  }

  lemma ConnDisturbs(t: Tables, sid: nat, other: nat, vip: Addr)
    requires StatesOk(t) && sid < |t.states| && other < |t.states| && t.states[other].activeConns >= 0
    ensures Undisturbed(t, Register(t, other), sid) ==> other != sid && t.states[sid].activeConns <= 0
    ensures t.states[other].activeConns > 0 && Undisturbed(t, Deregister(t, other, vip), sid) ==>
      other != sid && t.states[sid].activeConns <= 0
  {
  }

  /** A step that leaves the generation alone and the state unconnected was no activity on it. */
  lemma QuietStep(s: State, step: Step, sid: nat)
    requires Inv(s) && Enabled(s, step) && Undisturbed(s.t, Apply(s, step).t, sid)
    ensures s.t.states[sid].activeConns <= 0 && !Activity(s, step, sid)
  {
    match step
    case StartCheck(key) =>
      if key in s.t.entries {
        TouchDisturbs(s.t, key.vip, sid);
      }
    case StartRecheck(c) =>
      if s.starts[c].bkey in s.t.entries {
        TouchDisturbs(s.t, s.starts[c].bkey.vip, sid);
      } else {
        InstallDisturbs(s.t, s.starts[c].bkey, s.starts[c].held, sid);
      }
    case TouchVip(vip) => TouchDisturbs(s.t, vip, sid);
    case RegisterConn(h) => ConnDisturbs(s.t, sid, s.handlers[h].sid, 0);
    case DeregisterConn(h) =>
      assert h in ServingOn(s.handlers, s.handlers[h].sid);
      ConnDisturbs(s.t, sid, s.handlers[h].sid, s.handlers[h].vip);
    case _ =>
  }

  /** The tables before each step of a run, and at its end. */
  ghost function History(c: Settings, steps: seq<Step>): (h: seq<Tables>)
    requires IsRun(c, steps)
    ensures |h| == |steps| + 1
  {
    seq(|steps| + 1, k requires 0 <= k <= |steps| => At(c, steps, k).t)
  }

  /** A change that evolves the tables, and finds unconnected every state it leaves undisturbed. */
  ghost predicate GradualStep(t: Tables, t': Tables) {
    Evolves(t, t') && forall sid: nat :: Undisturbed(t, t', sid) ==> t.states[sid].activeConns <= 0
  }

  ghost predicate GradualAt(h: seq<Tables>, k: nat)
    requires k + 1 < |h|
  {
    GradualStep(h[k], h[k + 1])
  }

  ghost predicate Gradual(h: seq<Tables>) {
    forall k :: 0 <= k < |h| - 1 ==> GradualAt(h, k)
  }

  lemma StepIsGradual(s: State, step: Step)
    requires Inv(s) && Enabled(s, step)
    ensures GradualStep(s.t, Apply(s, step).t)
  {
    StepEvolves(s, step);
    forall sid: nat | Undisturbed(s.t, Apply(s, step).t, sid) ensures s.t.states[sid].activeConns <= 0 {
      QuietStep(s, step, sid);
    }
  }

  lemma HistoryIsGradual(c: Settings, steps: seq<Step>)
    requires IsRun(c, steps)
    ensures Gradual(History(c, steps))
  {
    var h := History(c, steps);
    forall k | 0 <= k < |h| - 1 ensures GradualAt(h, k) {
      GradualFrom(c, steps, k);
    }
  }

  lemma GradualFrom(c: Settings, steps: seq<Step>, k: nat)
    requires IsRun(c, steps) && k < |steps|
    ensures GradualStep(At(c, steps, k).t, At(c, steps, k + 1).t)
  {
    AtStep(c, steps, k);
    StepIsGradual(At(c, steps, k), steps[k]);
  }

  predicate TracksIn(t: Tables, vip: Addr, sid: nat) {
    vip in t.vipStates && t.vipStates[vip] == sid && sid < |t.states|
  }

  lemma {:induction false} GenerationGrows(h: seq<Tables>, k: nat, sid: nat)
    requires Gradual(h) && k < |h| && sid < |h[k].states|
    ensures var last := h[|h| - 1];
      sid < |last.states| && h[k].states[sid].generation <= last.states[sid].generation
    decreases |h| - k
  {
    if k + 1 < |h| {
      assert GradualAt(h, k);
      GenerationGrows(h, k + 1, sid);
    }
  }

  /** If a state is tracked and unconnected at the end, with the generation it had at `k`, then
      nothing disturbed it in between. */
  lemma {:induction false} UndisturbedSince(h: seq<Tables>, k: nat, vip: Addr, sid: nat)
    requires Gradual(h) && k < |h| && sid < |h[k].states|
    requires var last := h[|h| - 1];
      TracksIn(last, vip, sid) && last.states[sid].activeConns <= 0
      && h[k].states[sid].generation == last.states[sid].generation
    ensures forall m :: k <= m < |h| ==> TracksIn(h[m], vip, sid) && h[m].states[sid].activeConns <= 0
    ensures forall m :: k <= m < |h| - 1 ==> Undisturbed(h[m], h[m + 1], sid)
    decreases |h| - k
  {
    if k + 1 < |h| {
      assert GradualAt(h, k);
      GenerationGrows(h, k + 1, sid);
      UndisturbedSince(h, k + 1, vip, sid);
      assert Undisturbed(h[k], h[k + 1], sid);
    }
  }

  /** Change `j` armed timer `i`. */
  ghost predicate ArmedBy(h: seq<Tables>, j: nat, i: nat) {
    j + 1 < |h| && |h[j].timers| == i && |h[j + 1].timers| == i + 1
  }

  lemma {:induction false} FindArming(h: seq<Tables>, k: nat, i: nat) returns (j: nat)
    requires Gradual(h) && k < |h| && i < |h[k].timers| && h[0].timers == []
    ensures j < k && ArmedBy(h, j, i) && h[j].settings == h[k].settings
    ensures FreshTimer(h[j], h[j + 1], h[k].timers[i])
    decreases k
  {
    assert GradualAt(h, k - 1);
    if i < |h[k - 1].timers| {
      j := FindArming(h, k - 1, i);
    } else {
      j := k - 1;
    }
  }

  /** From step `k` on, nothing happened to `sid`: it stayed tracked and unconnected, and no step
      touched its address, connected to it or disconnected from it. */
  ghost predicate QuietFrom(c: Settings, steps: seq<Step>, k: nat, vip: Addr, sid: nat)
    requires IsRun(c, steps)
  {
    && (forall m :: k <= m <= |steps| ==>
          TracksIn(At(c, steps, m).t, vip, sid) && At(c, steps, m).t.states[sid].activeConns <= 0)
    && (forall m :: k <= m < |steps| ==>
          Enabled(At(c, steps, m), steps[m]) && !Activity(At(c, steps, m), steps[m], sid))
  }

  lemma QuietSince(c: Settings, steps: seq<Step>, k: nat, vip: Addr, sid: nat)
    requires IsRun(c, steps)
    requires var h := History(c, steps);
      && (forall m :: k <= m < |h| ==> TracksIn(h[m], vip, sid) && h[m].states[sid].activeConns <= 0)
      && (forall m :: k <= m < |h| - 1 ==> Undisturbed(h[m], h[m + 1], sid))
    ensures QuietFrom(c, steps, k, vip, sid)
  {
    var h := History(c, steps);
    forall m | k <= m <= |steps|
      ensures TracksIn(At(c, steps, m).t, vip, sid) && At(c, steps, m).t.states[sid].activeConns <= 0
    {
      assert h[m] == At(c, steps, m).t;
    }
    forall m | k <= m < |steps|
      ensures Enabled(At(c, steps, m), steps[m]) && !Activity(At(c, steps, m), steps[m], sid)
    {
      AtStep(c, steps, m);
      assert Undisturbed(h[m], h[m + 1], sid);
      QuietStep(At(c, steps, m), steps[m], sid);
    }
  }

  /** Since the step `j` that armed timer `i`, a full idle period has passed in which its state stayed
      tracked and unconnected, and was neither touched nor connected to. */
  ghost predicate IdleSince(c: Settings, steps: seq<Step>, i: nat, j: nat)
    requires IsRun(c, steps)
  {
    var h := History(c, steps);
    var t := h[|steps|];
    && ArmedBy(h, j, i) && i < |t.timers| && h[j].now + c.idleTimeout <= t.now
    && QuietFrom(c, steps, j + 1, t.timers[i].vip, t.timers[i].owner)
  }

  /** When a callback passes its check on the state that armed it, that state has been idle for a full
      period, ever since it was armed. */
  lemma ExpiryOnlyWhenIdle(c: Settings, steps: seq<Step>, i: nat) returns (j: nat)
    requires IsRun(c, steps) && Enabled(After(c, steps), ExpireCheck(i))
    requires var s := After(c, steps); var timer := s.t.timers[i];
      PassesCheck(s.t, timer.vip, timer.gen) && Tracks(s, timer.vip, timer.owner)
    ensures IdleSince(c, steps, i, j)
  {
    var t := After(c, steps).t;
    HistoryEnds(c, steps);
    HistoryIsGradual(c, steps);
    SettingsFixed(c, steps);
    assert TimerOk(t, i);
    j := IdleHistory(History(c, steps), i);
    QuietSince(c, steps, j + 1, t.timers[i].vip, t.timers[i].owner);
  }

  lemma HistoryEnds(c: Settings, steps: seq<Step>)
    requires IsRun(c, steps)
    ensures var h := History(c, steps); h[0] == Empty(c) && h[|h| - 1] == After(c, steps).t
  {
    assert steps[..0] == [];
    AtEnd(c, steps);
  }

  lemma IdleHistory(h: seq<Tables>, i: nat) returns (j: nat)
    requires Gradual(h) && |h| > 0 && h[0].timers == []
    requires var t := h[|h| - 1];
      && i < |t.timers| && TracksIn(t, t.timers[i].vip, t.timers[i].owner) && t.timers[i].due <= t.now
      && t.states[t.timers[i].owner].activeConns <= 0 && t.states[t.timers[i].owner].generation == t.timers[i].gen
    ensures var t := h[|h| - 1]; var timer := t.timers[i];
      && ArmedBy(h, j, i) && h[j].now + t.settings.idleTimeout <= t.now
      && (forall m :: j < m < |h| ==> TracksIn(h[m], timer.vip, timer.owner) && h[m].states[timer.owner].activeConns <= 0)
      && (forall m :: j < m < |h| - 1 ==> Undisturbed(h[m], h[m + 1], timer.owner))
  {
    var timer := h[|h| - 1].timers[i];
    j := FindArming(h, |h| - 1, i);
    UndisturbedSince(h, j + 1, timer.vip, timer.owner);
  }

  lemma {:induction false} SettingsFixed(c: Settings, steps: seq<Step>)
    requires IsRun(c, steps)
    ensures After(c, steps).t.settings == c
    decreases |steps|
  {
    if steps != [] {
      var n := |steps| - 1;
      SettingsFixed(c, steps[..n]);
      LastStep(c, steps, n);
      StepEvolves(After(c, steps[..n]), steps[n]);
    }
  }
}
