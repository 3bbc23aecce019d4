/** The tables a forward manager keeps, and what each locked section does to them.
    Pointers to listeners, per-VIP states and timers are indices into the sequences of
    everything ever created, so that a goroutine can hold on to a state that the tables
    no longer mention. */
module ForwardState {
  import opened Wrappers

  datatype ForwardKey = ForwardKey(contextName: string, vip: Addr, port: int)

  /** `Fired` means the runtime has started the callback but it has not taken the lock yet. */
  datatype TimerStatus = Armed | Fired | Stopped | Ran

  /** `vip` and `gen` are captured by the callback; `owner` records which state armed it. */
  datatype Timer = Timer(vip: Addr, owner: nat, gen: nat, due: int, status: TimerStatus)

  datatype VipState = VipState(timer: Option<nat>, generation: nat, activeConns: int, forwardKeys: seq<ForwardKey>)

  datatype Listener = Listener(key: ForwardKey, open: bool)

  datatype Settings = Settings(idleTimeout: int, hasReleaser: bool)

  datatype Tables = Tables(
    settings: Settings,
    entries: map<ForwardKey, nat>,
    vipStates: map<Addr, nat>,
    states: seq<VipState>,
    timers: seq<Timer>,
    listeners: seq<Listener>,
    now: nat)

  function Empty(settings: Settings): Tables {
    Tables(settings, map[], map[], [], [], [], 0)
  }

  predicate Tracking(c: Settings) {
    c.idleTimeout > 0 && c.hasReleaser
  }

  /** Every index points at something that exists. */
  ghost predicate InRange(s: Tables) {
    && (forall k :: k in s.entries ==> s.entries[k] < |s.listeners|)
    && (forall v :: v in s.vipStates ==> s.vipStates[v] < |s.states|)
    && (forall i :: 0 <= i < |s.states| && s.states[i].timer.Some? ==> s.states[i].timer.value < |s.timers|)
  }

  /** Stopping affects only armed timers: a callback that has started cannot be stopped. */
  function StopSet(timers: seq<Timer>, ts: set<nat>): (r: seq<Timer>)
    ensures |r| == |timers|
    ensures forall t :: 0 <= t < |r| ==>
      r[t] == if t in ts && timers[t].status == Armed then timers[t].(status := Stopped) else timers[t]
  {
    seq(|timers|, t requires 0 <= t < |timers| =>
      if t in ts && timers[t].status == Armed then timers[t].(status := Stopped) else timers[t])
  }

  function TimerOf(st: VipState): set<nat> {
    if st.timer.Some? then {st.timer.value} else {}
  }

  function CloseSet(listeners: seq<Listener>, ls: set<nat>): (r: seq<Listener>)
    ensures |r| == |listeners|
    ensures forall l :: 0 <= l < |r| ==>
      r[l] == if l in ls then listeners[l].(open := false) else listeners[l]
  {
    seq(|listeners|, l requires 0 <= l < |listeners| =>
      if l in ls then listeners[l].(open := false) else listeners[l])
  }

  function StopTimer(s: Tables, sid: nat): Tables
    requires sid < |s.states|
  {
    s.(timers := StopSet(s.timers, TimerOf(s.states[sid])))
  }

  /** A new generation with a fresh timer, overwriting the timer field. */
  function Arm(s: Tables, sid: nat, vip: Addr): Tables
    requires sid < |s.states|
  {
    var gen := s.states[sid].generation + 1;
    s.(states := s.states[sid := s.states[sid].(generation := gen, timer := Some(|s.timers|))],
       timers := s.timers + [Timer(vip, sid, gen, s.now + s.settings.idleTimeout, Armed)])
  }

  function Touch(s: Tables, vip: Addr): (r: Tables)
    requires InRange(s)
    ensures InRange(r)
  {
    if s.settings.idleTimeout == 0 || !s.settings.hasReleaser || vip !in s.vipStates then s
    else
      var sid := s.vipStates[vip];
      var stopped := StopTimer(s, sid);
      if s.states[sid].activeConns > 0 then stopped else Arm(stopped, sid, vip)
  }

  /** The tables after `key` is entered for listener `l`, before the timer is touched. */
  function AddEntry(s: Tables, key: ForwardKey, l: nat): (r: Tables)
    requires InRange(s)
    ensures l < |s.listeners| ==> InRange(r)
  {
    var s1 := s.(entries := s.entries[key := l]);
    if !Tracking(s.settings) then s1
    else if key.vip in s.vipStates then
      var sid := s.vipStates[key.vip];
      s1.(states := s.states[sid := s.states[sid].(forwardKeys := s.states[sid].forwardKeys + [key])])
    else
      s1.(vipStates := s.vipStates[key.vip := |s.states|],
          states := s.states + [VipState(None, 0, 0, [key])])
  }

  function Install(s: Tables, key: ForwardKey, l: nat): (r: Tables)
    requires InRange(s) && l < |s.listeners|
    ensures InRange(r)
  {
    var s1 := AddEntry(s, key, l);
    if Tracking(s.settings) then Touch(s1, key.vip) else s1
  }

  function Bind(s: Tables, key: ForwardKey): Tables {
    s.(listeners := s.listeners + [Listener(key, true)])
  }

  function Close(s: Tables, l: nat): Tables {
    s.(listeners := CloseSet(s.listeners, {l}))
  }

  function KeySet(keys: seq<ForwardKey>): set<ForwardKey> {
    set i | 0 <= i < |keys| :: keys[i]
  }

  /** Closes and forgets the listeners entered under `ks`. */
  function DropEntries(s: Tables, ks: set<ForwardKey>): Tables {
    s.(listeners := CloseSet(s.listeners, set k | k in ks && k in s.entries :: s.entries[k]),
       entries := s.entries - ks)
  }

  /** A `StartForward` call that nothing interrupts. */
  function StartAlone(t: Tables, key: ForwardKey, listenOk: bool): (r: (Tables, bool))
    requires InRange(t)
    ensures InRange(r.0)
  {
    if key in t.entries then (Touch(t, key.vip), true)
    else if !listenOk then (t, false)
    else (Install(Bind(t, key), key, |t.listeners|), true)
  }

  predicate PassesCheck(s: Tables, vip: Addr, gen: nat)
    requires InRange(s)
  {
    vip in s.vipStates &&
    var st := s.states[s.vipStates[vip]];
    st.generation == gen && st.activeConns <= 0
  }

  /** What `expireVIP` does once its check has passed. */
  function TearDown(s: Tables, vip: Addr): Tables
    requires InRange(s) && vip in s.vipStates
  {
    var keys := s.states[s.vipStates[vip]].forwardKeys;
    DropEntries(s, KeySet(keys)).(vipStates := s.vipStates - {vip})
  }

  function SetConns(s: Tables, sid: nat, n: int): Tables
    requires sid < |s.states|
  {
    s.(states := s.states[sid := s.states[sid].(activeConns := n)])
  }

  function Register(s: Tables, sid: nat): Tables
    requires sid < |s.states|
  {
    SetConns(StopTimer(s, sid), sid, s.states[sid].activeConns + 1)
  }

  function Deregister(s: Tables, sid: nat, vip: Addr): Tables
    requires sid < |s.states|
  {
    var n := s.states[sid].activeConns - 1;
    var s1 := SetConns(s, sid, n);
    if n == 0 && s.settings.idleTimeout > 0 then Arm(s1, sid, vip) else s1
  }

  function KeysOf(s: Tables, ctx: string): set<ForwardKey> {
    set k | k in s.entries && k.contextName == ctx
  }

  function VipsOf(ks: set<ForwardKey>): set<Addr> {
    set k | k in ks :: k.vip
  }

  /** The timers that the states of `vips` point at. */
  function TimersOfVips(s: Tables, vips: set<Addr>): set<nat>
    requires InRange(s)
  {
    set v, t | v in vips && v in s.vipStates && t in TimerOf(s.states[s.vipStates[v]]) :: t
  }

  /** Stops the timers of the states of `vips` and forgets those states. */
  function DropStates(s: Tables, vips: set<Addr>): Tables
    requires InRange(s)
  {
    s.(timers := StopSet(s.timers, TimersOfVips(s, vips)), vipStates := s.vipStates - vips)
  }

  function ShutdownContext(s: Tables, ctx: string): Tables
    requires InRange(s)
  {
    var ks := KeysOf(s, ctx);
    DropStates(DropEntries(s, ks), VipsOf(ks))
  }

  function Shutdown(s: Tables): Tables
    requires InRange(s)
  {
    DropStates(DropEntries(s, s.entries.Keys), s.vipStates.Keys)
  }
}
