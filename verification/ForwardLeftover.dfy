/** Callbacks that outlive the state that armed them. Generations restart for every new state
    and a callback names its address, not its state, so on its own the forward manager does not
    stop a leftover callback from tearing down a later state of the same address. */
module ForwardLeftover {
  import opened Wrappers
  import opened ForwardState
  import opened ForwardProtocol
  import opened ForwardSafety
  import opened ForwardRuns

  /** No address has had two states. */
  ghost predicate SingleIncarnation(t: Tables)
    requires StatesOk(t)
  {
    forall a, b :: 0 <= a < b < |t.states| ==> VipOf(t.states[a]) != VipOf(t.states[b])
  }

  /** As long as no address has had two states, a callback that passes its check is that of the
      state it finds. */
  lemma OwnStateOnly(s: State, i: nat)
    requires Inv(s) && SingleIncarnation(s.t) && i < |s.t.timers|
    requires PassesCheck(s.t, s.t.timers[i].vip, s.t.timers[i].gen)
    ensures Tracks(s, s.t.timers[i].vip, s.t.timers[i].owner)
  {
    assert TimerOk(s.t, i);
    var a, b := s.t.vipStates[s.t.timers[i].vip], s.t.timers[i].owner;
    assert VipOf(s.t.states[a]) == VipOf(s.t.states[b]);
    assert a < b || b < a || a == b;
  }

  // ---------------------------------------------------------------- the counterexample run

  const IDLE := Settings(1, true)
  const KEY := ForwardKey("a", 1, 80)
  const FIRST := VipState(Some(0), 1, 0, [KEY])
  const SECOND := VipState(Some(1), 1, 0, [KEY])
  const LEFTOVER := Timer(1, 0, 1, 1, Fired)

  /** A reachable state, with a run that leads to it. */
  ghost predicate Reaches(steps: seq<Step>, s: State) {
    IsRun(IDLE, steps) && After(IDLE, steps) == s
  }

  lemma Extend(steps: seq<Step>, step: Step, s: State, s': State) returns (longer: seq<Step>)
    requires Reaches(steps, s) && Inv(s) && Enabled(s, step) && Apply(s, step) == s'
    ensures Reaches(longer, s') && Inv(s')
  {
    Snoc(IDLE, steps, step);
    longer := steps + [step];
  }

  function Calm(t: Tables, starts: seq<StartPc>): State {
    State(t, starts, [], None)
  }

  function Tracked(status: TimerStatus, now: nat): Tables {
    Tables(IDLE, map[KEY := 0], map[1 := 0], [FIRST], [LEFTOVER.(status := status)], [Listener(KEY, true)], now)
  }

  /** After the first forward is shut down, with the listeners bound since. */
  function Cleared(listeners: seq<Listener>): Tables {
    Tables(IDLE, map[], map[], [FIRST], [LEFTOVER], [Listener(KEY, false)] + listeners, 1)
  }

  const RESTARTED := Tables(IDLE, map[KEY := 1], map[1 := 1], [FIRST, SECOND], [LEFTOVER, Timer(1, 1, 1, 2, Armed)],
                            [Listener(KEY, false), Listener(KEY, true)], 1)

  function FirstBound(): State {
    Calm(Empty(IDLE).(listeners := [Listener(KEY, true)]), [Bound(KEY, 0)])
  }

  lemma CheckFirst() returns (steps: seq<Step>)
    ensures Reaches(steps, Calm(Empty(IDLE), [Binding(KEY)]))
  {
    steps := [];
    assert Reaches(steps, Init(IDLE));
    steps := Extend(steps, StartCheck(KEY), Init(IDLE), Calm(Empty(IDLE), [Binding(KEY)]));
  }

  lemma BindFirst() returns (steps: seq<Step>)
    ensures Reaches(steps, FirstBound())
  {
    steps := CheckFirst();
    steps := Extend(steps, BindListener(0, true), Calm(Empty(IDLE), [Binding(KEY)]), FirstBound());
  }

  lemma FirstInstalled()
    ensures Install(FirstBound().t, KEY, 0) == Tracked(Armed, 0)
  {
    var t1 := AddEntry(FirstBound().t, KEY, 0);
    assert t1.vipStates == map[1 := 0] && t1.states == [VipState(None, 0, 0, [KEY])];
    var t2 := StopTimer(t1, 0);
    assert t2.timers == [];
  }

  lemma TrackFirst() returns (steps: seq<Step>)
    ensures Reaches(steps, Calm(Tracked(Armed, 0), [Returned]))
  {
    steps := BindFirst();
    FirstInstalled();
    steps := Extend(steps, StartRecheck(0), FirstBound(), Calm(Tracked(Armed, 0), [Returned]));
  }

  lemma PassTime() returns (steps: seq<Step>)
    ensures Reaches(steps, Calm(Tracked(Armed, 1), [Returned]))
  {
    steps := TrackFirst();
    steps := Extend(steps, Tick, Calm(Tracked(Armed, 0), [Returned]), Calm(Tracked(Armed, 1), [Returned]));
  }

  lemma FireFirst() returns (steps: seq<Step>)
    ensures Reaches(steps, Calm(Tracked(Fired, 1), [Returned]))
  {
    steps := PassTime();
    steps := Extend(steps, Fire(0), Calm(Tracked(Armed, 1), [Returned]), Calm(Tracked(Fired, 1), [Returned]));
  }

  lemma StopFirst() returns (steps: seq<Step>)
    ensures Reaches(steps, Calm(Cleared([]), [Returned]))
  {
    steps := FireFirst();
    StopEffect();
    steps := Extend(steps, StopContext("a"), Calm(Tracked(Fired, 1), [Returned]), Calm(Cleared([]), [Returned]));
  }

  lemma StopEffect()
    ensures InRange(Tracked(Fired, 1)) && ForwardState.ShutdownContext(Tracked(Fired, 1), "a") == Cleared([])
  {
    var t := Tracked(Fired, 1);
    var ks := KeysOf(t, "a");
    assert KEY in ks && VipsOf(ks) == {1};
    assert (set k | k in ks && k in t.entries :: t.entries[k]) == {0};
    var t' := ForwardState.ShutdownContext(t, "a");
    assert t'.entries == map[] && t'.vipStates == map[];
    assert t'.listeners == [Listener(KEY, false)];
    assert t'.timers == t.timers;
  }

  lemma CheckSecond() returns (steps: seq<Step>)
    ensures Reaches(steps, Calm(Cleared([]), [Returned, Binding(KEY)]))
  {
    steps := StopFirst();
    steps := Extend(steps, StartCheck(KEY), Calm(Cleared([]), [Returned]), Calm(Cleared([]), [Returned, Binding(KEY)]));
  }

  function SecondBound(): State {
    Calm(Cleared([Listener(KEY, true)]), [Returned, Bound(KEY, 1)])
  }

  lemma BindSecond() returns (steps: seq<Step>)
    ensures Reaches(steps, SecondBound())
  {
    steps := CheckSecond();
    steps := Extend(steps, BindListener(1, true), Calm(Cleared([]), [Returned, Binding(KEY)]), SecondBound());
  }

  lemma SecondInstalled()
    ensures Install(SecondBound().t, KEY, 1) == RESTARTED
  {
    var t1 := AddEntry(SecondBound().t, KEY, 1);
    assert t1.vipStates == map[1 := 1] && t1.states == [FIRST, VipState(None, 0, 0, [KEY])];
    var t2 := StopTimer(t1, 1);
    assert t2.timers == [LEFTOVER];
  }

  lemma TrackSecond() returns (steps: seq<Step>)
    ensures Reaches(steps, Calm(RESTARTED, [Returned, Returned]))
  {
    steps := BindSecond();
    SecondInstalled();
    steps := Extend(steps, StartRecheck(1), SecondBound(), Calm(RESTARTED, [Returned, Returned]));
  }

  /** A run in which the callback of a forward that was shut down passes its check on the state of
      a second forward for the same address, which was touched at this very moment. */
  lemma LeftoverTearsDownFreshState() returns (steps: seq<Step>)
    ensures IsRun(IDLE, steps) && Enabled(After(IDLE, steps), ExpireCheck(0))
    ensures var t := After(IDLE, steps).t;
      && PassesCheck(t, t.timers[0].vip, t.timers[0].gen)
      && t.vipStates[t.timers[0].vip] != t.timers[0].owner
      && |t.timers| == 2 && t.timers[1].owner == t.vipStates[t.timers[0].vip]
      && t.timers[1].due == t.now + t.settings.idleTimeout
  {
    steps := TrackSecond();
  }
}
