/** The forward manager as a machine: each locked section of each goroutine is one step,
    and a run is any interleaving of the steps of any number of goroutines. */
module ForwardProtocol {
  import opened Wrappers
  import opened ForwardState

  /** A `StartForward` call between its locked sections. */
  datatype StartPc = Binding(key: ForwardKey) | Bound(bkey: ForwardKey, held: nat) | Discarding(held: nat) | Returned

  /** A `handleConn` goroutine between its locked sections. */
  datatype HandlerPc = Accepted(vip: Addr) | Fetched(vip: Addr, sid: nat) | Serving(vip: Addr, sid: nat) | Untracked | Finished

  /** `expiring` holds the address of the `expireVIP` call that has passed its check and
      still holds the manager's lock. */
  datatype State = State(t: Tables, starts: seq<StartPc>, handlers: seq<HandlerPc>, expiring: Option<Addr>)

  datatype Step =
    | StartCheck(key: ForwardKey)
    | BindListener(call: nat, ok: bool)
    | StartRecheck(call: nat)
    | Discard(call: nat)
    | TouchVip(vip: Addr)
    | Tick
    | Fire(timer: nat)
    | ExpireCheck(timer: nat)
    | ExpireDelete
    | Accept(listener: nat)
    | AcceptError(listener: nat)
    | FetchState(handler: nat)
    | RegisterConn(handler: nat)
    | DeregisterConn(handler: nat)
    | StopContext(ctx: string)
    | StopAll

  function Init(settings: Settings): State {
    State(Empty(settings), [], [], None)
  }

  /** Steps that need the manager's lock cannot run while an expiry holds it. */
  predicate NeedsLock(step: Step) {
    step.StartCheck? || step.StartRecheck? || step.TouchVip? || step.ExpireCheck? || step.FetchState?
    || step.StopContext? || step.StopAll?
  }

  predicate Enabled(s: State, step: Step) {
    && (NeedsLock(step) ==> s.expiring.None?)
    && match step
       case BindListener(c, _) => c < |s.starts| && s.starts[c].Binding?
       case StartRecheck(c) => c < |s.starts| && s.starts[c].Bound?
       case Discard(c) => c < |s.starts| && s.starts[c].Discarding?
       case Fire(i) => i < |s.t.timers| && s.t.timers[i].status == Armed && s.t.timers[i].due <= s.t.now
       case ExpireCheck(i) => i < |s.t.timers| && s.t.timers[i].status == Fired
       case ExpireDelete => s.expiring.Some?
       case Accept(l) => l < |s.t.listeners| && s.t.listeners[l].open
       case AcceptError(l) => l < |s.t.listeners| && s.t.listeners[l].open
       case FetchState(h) => h < |s.handlers| && s.handlers[h].Accepted?
       case RegisterConn(h) => h < |s.handlers| && s.handlers[h].Fetched?
       case DeregisterConn(h) => h < |s.handlers| && s.handlers[h].Serving?
       case _ => true
  }

  function SetStatus(t: Tables, i: nat, status: TimerStatus): Tables
    requires i < |t.timers|
  {
    t.(timers := t.timers[i := t.timers[i].(status := status)])
  }

  function Apply(s: State, step: Step): State
    requires Inv(s) && Enabled(s, step)
  {
    match step
    case StartCheck(key) =>
      if key in s.t.entries then s.(t := Touch(s.t, key.vip), starts := s.starts + [Returned])
      else s.(starts := s.starts + [Binding(key)])
    case BindListener(c, ok) =>
      if ok then s.(t := Bind(s.t, s.starts[c].key), starts := s.starts[c := Bound(s.starts[c].key, |s.t.listeners|)])
      else s.(starts := s.starts[c := Returned])
    case StartRecheck(c) =>
      var key, l := s.starts[c].bkey, s.starts[c].held;
      if key in s.t.entries then s.(t := Touch(s.t, key.vip), starts := s.starts[c := Discarding(l)])
      else s.(t := Install(s.t, key, l), starts := s.starts[c := Returned])
    case Discard(c) => s.(t := Close(s.t, s.starts[c].held), starts := s.starts[c := Returned])
    case TouchVip(vip) => s.(t := Touch(s.t, vip))
    case Tick => s.(t := s.t.(now := s.t.now + 1))
    case Fire(i) => s.(t := SetStatus(s.t, i, Fired))
    case ExpireCheck(i) =>
      var timer := s.t.timers[i];
      s.(t := SetStatus(s.t, i, Ran),
         expiring := if PassesCheck(s.t, timer.vip, timer.gen) then Some(timer.vip) else None)
    case ExpireDelete => s.(t := TearDown(s.t, s.expiring.value), expiring := None)
    case Accept(l) => s.(handlers := s.handlers + [Accepted(s.t.listeners[l].key.vip)])
    case AcceptError(l) => s.(t := Close(s.t, l))
    case FetchState(h) =>
      var vip := s.handlers[h].vip;
      s.(handlers := s.handlers[h := if Tracking(s.t.settings) && vip in s.t.vipStates
                                     then Fetched(vip, s.t.vipStates[vip]) else Untracked])
    case RegisterConn(h) =>
      s.(t := Register(s.t, s.handlers[h].sid), handlers := s.handlers[h := Serving(s.handlers[h].vip, s.handlers[h].sid)])
    case DeregisterConn(h) =>
      s.(t := Deregister(s.t, s.handlers[h].sid, s.handlers[h].vip), handlers := s.handlers[h := Finished])
    case StopContext(ctx) => s.(t := ForwardState.ShutdownContext(s.t, ctx))
    case StopAll => s.(t := ForwardState.Shutdown(s.t))
  }

  // ---------------------------------------------------------------- invariant

  /** The handlers that have registered on state `sid` and not deregistered. */
  function ServingOn(handlers: seq<HandlerPc>, sid: nat): set<nat> {
    set h | 0 <= h < |handlers| && handlers[h].Serving? && handlers[h].sid == sid
  }

  predicate Holds(pc: StartPc, l: nat) {
    (pc.Bound? || pc.Discarding?) && pc.held == l
  }

  predicate Entered(t: Tables, l: nat)
    requires l < |t.listeners|
  {
    t.listeners[l].key in t.entries && t.entries[t.listeners[l].key] == l
  }

  /** All keys of a state are on one address and none is repeated. */
  ghost predicate KeysOk(st: VipState) {
    && st.forwardKeys != []
    && (forall i :: 0 <= i < |st.forwardKeys| ==> st.forwardKeys[i].vip == st.forwardKeys[0].vip)
    && (forall i, j :: 0 <= i < j < |st.forwardKeys| ==> st.forwardKeys[i] != st.forwardKeys[j])
  }

  function VipOf(st: VipState): Addr
    requires KeysOk(st)
  {
    st.forwardKeys[0].vip
  }

  ghost predicate StatesOk(t: Tables) {
    && InRange(t)
    && (forall i :: 0 <= i < |t.states| ==> KeysOk(t.states[i]))
    && (forall v :: v in t.vipStates ==> VipOf(t.states[t.vipStates[v]]) == v)
    && (forall v, i :: v in t.vipStates && 0 <= i < |t.states[t.vipStates[v]].forwardKeys| ==>
          t.states[t.vipStates[v]].forwardKeys[i] in t.entries)
    && (t.states != [] ==> Tracking(t.settings))
  }

  ghost predicate HandlersInv(s: State) {
    && InRange(s.t)
    && (forall h :: 0 <= h < |s.handlers| && (s.handlers[h].Fetched? || s.handlers[h].Serving?) ==>
          s.handlers[h].sid < |s.t.states| && KeysOk(s.t.states[s.handlers[h].sid])
          && VipOf(s.t.states[s.handlers[h].sid]) == s.handlers[h].vip)
    && (forall i :: 0 <= i < |s.t.states| ==> s.t.states[i].activeConns == |ServingOn(s.handlers, i)|)
  }

  /** A state's timer field always points at the callback with its current generation, every
      other callback it ever armed carries an older one, and nothing is armed behind its back. */
  ghost predicate TimerOk(t: Tables, i: nat)
    requires i < |t.timers|
  {
    t.timers[i].owner < |t.states| &&
    var st := t.states[t.timers[i].owner];
    && KeysOk(st) && t.timers[i].vip == VipOf(st)
    && t.timers[i].gen <= st.generation
    && (t.timers[i].gen == st.generation ==> st.timer == Some(i))
    && (t.timers[i].status == Armed ==> st.timer == Some(i) && st.activeConns <= 0)
    && (t.timers[i].status == Fired || t.timers[i].status == Ran ==> t.timers[i].due <= t.now)
  }

  ghost predicate PointerOk(t: Tables, sid: nat)
    requires sid < |t.states|
  {
    t.states[sid].timer.Some? ==>
      var i := t.states[sid].timer.value;
      i < |t.timers| && t.timers[i].owner == sid && t.timers[i].gen == t.states[sid].generation
  }

  /** A tracked state nobody is connected to has its callback pending. */
  ghost predicate Pending(t: Tables, sid: nat)
    requires sid < |t.states|
  {
    t.states[sid].activeConns <= 0 ==>
      && t.states[sid].timer.Some? && t.states[sid].timer.value < |t.timers|
      && (t.timers[t.states[sid].timer.value].status == Armed || t.timers[t.states[sid].timer.value].status == Fired)
  }

  ghost predicate TimersOk(t: Tables) {
    && InRange(t)
    && (forall i :: 0 <= i < |t.timers| ==> TimerOk(t, i))
    && (forall sid :: 0 <= sid < |t.states| ==> PointerOk(t, sid))
  }

  /** Every tracked state but the one being torn down has its callback pending if idle. */
  ghost predicate PendingExcept(t: Tables, condemned: Option<Addr>)
    requires InRange(t)
  {
    forall v :: v in t.vipStates && condemned != Some(v) ==> Pending(t, t.vipStates[v])
  }

  ghost predicate ListenersInv(s: State) {
    && InRange(s.t)
    && (forall k :: k in s.t.entries ==> s.t.listeners[s.t.entries[k]].key == k)
    && (forall c :: 0 <= c < |s.starts| && s.starts[c].Bound? ==>
          s.starts[c].held < |s.t.listeners| && s.t.listeners[s.starts[c].held].key == s.starts[c].bkey)
    && (forall c :: 0 <= c < |s.starts| && (s.starts[c].Bound? || s.starts[c].Discarding?) ==>
          s.starts[c].held < |s.t.listeners| && !Entered(s.t, s.starts[c].held))
    && (forall c, d :: 0 <= c < d < |s.starts| && (s.starts[c].Bound? || s.starts[c].Discarding?) ==>
          !Holds(s.starts[d], s.starts[c].held))
    && (forall l :: 0 <= l < |s.t.listeners| && s.t.listeners[l].open && !Entered(s.t, l) ==>
          exists c :: 0 <= c < |s.starts| && Holds(s.starts[c], l))
  }

  ghost predicate Inv(s: State) {
    && StatesOk(s.t) && (s.expiring.Some? ==> s.expiring.value in s.t.vipStates)
    && HandlersInv(s)
    && TimersOk(s.t) && PendingExcept(s.t, s.expiring)
    && ListenersInv(s)
  }
}
