/** Connections and the addresses they came in on. Which listener a handler was accepted on, and which
    key a `StartForward` call was made for, is read off the run. */
module ForwardHandlers {
  import opened Wrappers
  import opened ForwardState
  import opened ForwardProtocol
  import opened ForwardSafety
  import opened ForwardRuns
  import opened ForwardEffects

  /** The listeners of the connections accepted in a run, in order. */
  function AcceptedOn(steps: seq<Step>): seq<nat> {
    if steps == [] then []
    else
      var n := |steps| - 1;
      AcceptedOn(steps[..n]) + if steps[n].Accept? then [steps[n].listener] else []
  }

  /** The keys of the `StartForward` calls made in a run, in order. */
  function CalledFor(steps: seq<Step>): seq<ForwardKey> {
    if steps == [] then []
    else
      var n := |steps| - 1;
      CalledFor(steps[..n]) + if steps[n].StartCheck? then [steps[n].key] else []
  }

  predicate HasAddress(pc: HandlerPc) {
    pc.Accepted? || pc.Fetched? || pc.Serving?
  }

  /** Handler `h` was accepted on listener `on[h]` and goes by that listener's address. */
  ghost predicate OwnAddress(s: State, on: seq<nat>) {
    && |on| == |s.handlers|
    && (forall h :: 0 <= h < |on| ==> on[h] < |s.t.listeners|)
    && (forall h :: 0 <= h < |on| && HasAddress(s.handlers[h]) ==> s.handlers[h].vip == s.t.listeners[on[h]].key.vip)
  }

  /** Call `c` was made for `key` and binds, or holds a listener for, that key. */
  ghost predicate CallOwnKey(s: State, c: nat, key: ForwardKey)
    requires c < |s.starts|
  {
    var pc := s.starts[c];
    && (pc.Binding? ==> pc.key == key) && (pc.Bound? ==> pc.bkey == key)
    && (pc.Bound? || pc.Discarding? ==> pc.held < |s.t.listeners| && s.t.listeners[pc.held].key == key)
  }

  ghost predicate OwnKey(s: State, keys: seq<ForwardKey>) {
    |keys| == |s.starts| && forall c :: 0 <= c < |keys| ==> CallOwnKey(s, c, keys[c])
  }

  lemma KeysStay(s: State, step: Step)
    requires Inv(s) && Enabled(s, step)
    ensures var t' := Apply(s, step).t;
      |s.t.listeners| <= |t'.listeners| && forall l :: 0 <= l < |s.t.listeners| ==> t'.listeners[l].key == s.t.listeners[l].key
  {
    NewListener(s, step);
    forall l | 0 <= l < |s.t.listeners| ensures Apply(s, step).t.listeners[l].key == s.t.listeners[l].key {
      ListenerFate(s, step, l);
    }
  }

  lemma OwnAddressStep(s: State, step: Step, on: seq<nat>)
    requires Inv(s) && Enabled(s, step) && OwnAddress(s, on)
    ensures OwnAddress(Apply(s, step), on + if step.Accept? then [step.listener] else [])
  {
    KeysStay(s, step);
  }

  lemma OwnKeyStep(s: State, step: Step, keys: seq<ForwardKey>)
    requires Inv(s) && Enabled(s, step) && OwnKey(s, keys)
    ensures OwnKey(Apply(s, step), keys + if step.StartCheck? then [step.key] else [])
  {
    KeysStay(s, step);
    NewListener(s, step);
    CallFate(s, step);
    var keys', s' := keys + if step.StartCheck? then [step.key] else [], Apply(s, step);
    forall c | 0 <= c < |keys'| ensures CallOwnKey(s', c, keys'[c]) {
      assert c < |keys| ==> CallOwnKey(s, c, keys[c]);
    }
  }

  /** In every run, a handler goes by the address of the listener it was accepted on, and a call by the
      key it was made for, down to the listener it holds. */
  lemma {:induction false} OwnInEveryRun(c: Settings, steps: seq<Step>)
    requires IsRun(c, steps)
    ensures OwnAddress(After(c, steps), AcceptedOn(steps)) && OwnKey(After(c, steps), CalledFor(steps))
    decreases |steps|
  {
    if steps != [] {
      var n := |steps| - 1;
      OwnInEveryRun(c, steps[..n]);
      LastStep(c, steps, n);
      OwnAddressStep(After(c, steps[..n]), steps[n], AcceptedOn(steps[..n]));
      OwnKeyStep(After(c, steps[..n]), steps[n], CalledFor(steps[..n]));
    }
  }

  /** In every run, a handler that has fetched a state, or is registered on one, has one of the very
      address its connection came in on. */
  lemma OnOwnAddress(c: Settings, steps: seq<Step>, h: nat)
    requires IsRun(c, steps) && h < |After(c, steps).handlers|
    requires After(c, steps).handlers[h].Fetched? || After(c, steps).handlers[h].Serving?
    ensures h < |AcceptedOn(steps)| && AcceptedOn(steps)[h] < |After(c, steps).t.listeners|
    ensures var s := After(c, steps); var sid := s.handlers[h].sid;
      && sid < |s.t.states| && s.t.states[sid].forwardKeys != []
      && s.t.states[sid].forwardKeys[0].vip == s.t.listeners[AcceptedOn(steps)[h]].key.vip
  {
    OwnInEveryRun(c, steps);
  }

  /** A handler takes the state that tracks its listener's address at that moment, if any does. */
  lemma FetchFindsState(c: Settings, steps: seq<Step>, h: nat)
    requires IsRun(c, steps) && Enabled(After(c, steps), FetchState(h))
    ensures h < |AcceptedOn(steps)| && AcceptedOn(steps)[h] < |After(c, steps).t.listeners|
    ensures var s := After(c, steps); var vip := s.t.listeners[AcceptedOn(steps)[h]].key.vip;
      Apply(s, FetchState(h)).handlers[h] ==
        if Tracking(c) && vip in s.t.vipStates then Fetched(vip, s.t.vipStates[vip]) else Untracked
  {
    OwnInEveryRun(c, steps);
    SettingsFixed(c, steps);
  }

  /** From then on it stays with that state: it registers on it, and leaves it only by deregistering. */
  lemma StaysWithState(s: State, step: Step, h: nat)
    requires Inv(s) && Enabled(s, step) && h < |s.handlers| && h < |Apply(s, step).handlers|
    ensures var pc, pc' := s.handlers[h], Apply(s, step).handlers[h];
      && (pc.Fetched? ==> pc' == if step == RegisterConn(h) then Serving(pc.vip, pc.sid) else pc)
      && (pc.Serving? ==> pc' == if step == DeregisterConn(h) then Finished else pc)
      && (pc.Untracked? || pc.Finished? ==> pc' == pc)
  {
    HandlerFate(s, step);
  }

  /** A check that passes finds no connection registered on the state it is about to remove, in
      particular none that was accepted on a listener of that address. */
  lemma CheckFindsNobody(c: Settings, steps: seq<Step>, i: nat, h: nat)
    requires IsRun(c, steps) && Enabled(After(c, steps), ExpireCheck(i)) && h < |After(c, steps).handlers|
    requires Apply(After(c, steps), ExpireCheck(i)).expiring.Some?
    ensures var s := After(c, steps); var vip := Apply(s, ExpireCheck(i)).expiring.value;
      && vip == s.t.timers[i].vip && vip in s.t.vipStates
      && !(s.handlers[h].Serving? && s.handlers[h].sid == s.t.vipStates[vip])
  {
    var s := After(c, steps);
    var sid := s.t.vipStates[s.t.timers[i].vip];
    assert h in ServingOn(s.handlers, sid) <==> s.handlers[h].Serving? && s.handlers[h].sid == sid;
  }
}
