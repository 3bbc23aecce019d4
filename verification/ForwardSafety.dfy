/** Every step of the forward manager keeps the invariant. */
module ForwardSafety {
  import opened Wrappers
  import opened ForwardState
  import opened ForwardProtocol

  ghost predicate TablesOk(t: Tables, condemned: Option<Addr>) {
    StatesOk(t) && TimersOk(t) && PendingExcept(t, condemned)
  }

  // ---------------------------------------------------------------- the timer primitives

  /** Stopping timers keeps the timer discipline; only the owners' pending callbacks are lost. */
  lemma StopKeeps(t: Tables, ts: set<nat>)
    requires StatesOk(t) && TimersOk(t)
    ensures var t' := t.(timers := StopSet(t.timers, ts)); StatesOk(t') && TimersOk(t')
  {
    var t' := t.(timers := StopSet(t.timers, ts));
    forall i | 0 <= i < |t'.timers| ensures TimerOk(t', i) {
      assert TimerOk(t, i);
    }
    forall sid | 0 <= sid < |t'.states| ensures PointerOk(t', sid) {
      assert PointerOk(t, sid);
    }
  }

  /** Re-arming a state with no armed timer and no connection makes its callback pending. */
  lemma ArmKeeps(t: Tables, sid: nat, vip: Addr)
    requires StatesOk(t) && TimersOk(t)
    requires sid < |t.states| && VipOf(t.states[sid]) == vip && t.states[sid].activeConns <= 0
    requires forall i :: 0 <= i < |t.timers| && t.timers[i].owner == sid ==> t.timers[i].status != Armed
    ensures var t' := Arm(t, sid, vip); StatesOk(t') && TimersOk(t') && Pending(t', sid)
  {
    var t' := Arm(t, sid, vip);
    assert forall i :: 0 <= i < |t.states| ==> t'.states[i].forwardKeys == t.states[i].forwardKeys;
    forall i | 0 <= i < |t'.timers| ensures TimerOk(t', i) {
      if i < |t.timers| {
        assert TimerOk(t, i);
      }
    }
    forall j | 0 <= j < |t'.states| ensures PointerOk(t', j) {
      assert PointerOk(t, j);
    }
  }

  lemma StopSparesOthers(t: Tables, sid: nat, other: nat)
    requires sid < |t.states| && other < |t.states| && sid != other
    requires PointerOk(t, sid) && PointerOk(t, other) && Pending(t, other)
    ensures Pending(StopTimer(t, sid), other)
  {
  }

  lemma ArmSparesOthers(t: Tables, sid: nat, vip: Addr, other: nat)
    requires sid < |t.states| && other < |t.states| && sid != other && Pending(t, other)
    ensures Pending(Arm(t, sid, vip), other)
  {
  }

  /** After a stop, the state has no armed callback. */
  lemma StopDisarms(t: Tables, sid: nat)
    requires TimersOk(t) && sid < |t.states|
    ensures var t1 := StopTimer(t, sid);
      forall i :: 0 <= i < |t1.timers| && t1.timers[i].owner == sid ==> t1.timers[i].status != Armed
  {
    var t1 := StopTimer(t, sid);
    forall i | 0 <= i < |t1.timers| && t1.timers[i].owner == sid ensures t1.timers[i].status != Armed {
      assert TimerOk(t, i);
    }
  }

  lemma TouchDiscipline(t: Tables, vip: Addr)
    requires StatesOk(t) && TimersOk(t) && vip in t.vipStates
    ensures var t' := Touch(t, vip); StatesOk(t') && TimersOk(t') && Pending(t', t.vipStates[vip])
  {
    var sid := t.vipStates[vip];
    StopKeeps(t, TimerOf(t.states[sid]));
    StopDisarms(t, sid);
    if t.states[sid].activeConns <= 0 {
      ArmKeeps(StopTimer(t, sid), sid, vip);
    }
  }

  lemma TouchSparesOthers(t: Tables, vip: Addr, other: nat)
    requires InRange(t) && vip in t.vipStates && other < |t.states| && t.vipStates[vip] != other
    requires PointerOk(t, t.vipStates[vip]) && PointerOk(t, other) && Pending(t, other)
    ensures Pending(Touch(t, vip), other)
  {
    var sid := t.vipStates[vip];
    StopSparesOthers(t, sid, other);
    ArmSparesOthers(StopTimer(t, sid), sid, vip, other);
  }

  /** Touching makes the address's own callback pending and leaves the others' pending. */
  lemma TouchKeeps(t: Tables, vip: Addr, condemned: Option<Addr>)
    requires StatesOk(t) && TimersOk(t) && condemned != Some(vip)
    requires forall v :: v in t.vipStates && condemned != Some(v) && v != vip ==> Pending(t, t.vipStates[v])
    ensures TablesOk(Touch(t, vip), condemned)
  {
    if vip in t.vipStates {
      var t' := Touch(t, vip);
      TouchDiscipline(t, vip);
      TouchFrame(t, vip);
      forall v | v in t'.vipStates && condemned != Some(v) ensures Pending(t', t'.vipStates[v]) {
        if v != vip {
          assert VipOf(t.states[t.vipStates[v]]) == v;
          TouchSparesOthers(t, vip, t.vipStates[v]);
        }
      }
    }
  }

  // ---------------------------------------------------------------- the other table sections

  lemma InstallKeeps(t: Tables, key: ForwardKey, l: nat)
    requires TablesOk(t, None) && key !in t.entries && l < |t.listeners|
    ensures TablesOk(Install(t, key, l), None)
  {
    var t1 := AddEntry(t, key, l);
    AddEntryKeeps(t, key, l);
    if Tracking(t.settings) {
      TouchKeeps(t1, key.vip, None);
    }
  }

  lemma AddEntryKeeps(t: Tables, key: ForwardKey, l: nat)
    requires TablesOk(t, None) && key !in t.entries && l < |t.listeners|
    ensures var t1 := AddEntry(t, key, l);
      && StatesOk(t1) && TimersOk(t1)
      && forall v :: v in t1.vipStates && v != key.vip ==> Pending(t1, t1.vipStates[v])
  {
    var t1 := AddEntry(t, key, l);
    AddEntryStates(t, key, l);
    AddEntryTimers(t, key, l);
    forall v | v in t1.vipStates && v != key.vip ensures Pending(t1, t1.vipStates[v]) {
      assert Pending(t, t.vipStates[v]);
    }
  }

  /** The same timers, and states that differ at most in their later keys. */
  ghost predicate SameStatesBut(t: Tables, t1: Tables) {
    && t1.timers == t.timers && t1.now == t.now && |t.states| <= |t1.states|
    && (forall j :: 0 <= j < |t.states| ==> t1.states[j] == t.states[j].(forwardKeys := t1.states[j].forwardKeys))
    && (forall j :: 0 <= j < |t.states| && KeysOk(t.states[j]) ==> t1.states[j].forwardKeys != [] && t1.states[j].forwardKeys[0] == t.states[j].forwardKeys[0])
    && (forall j :: |t.states| <= j < |t1.states| ==> t1.states[j].timer.None?)
  }

  lemma AddEntrySame(t: Tables, key: ForwardKey, l: nat)
    requires InRange(t)
    ensures SameStatesBut(t, AddEntry(t, key, l))
  {
  }

  lemma AddEntryTimers(t: Tables, key: ForwardKey, l: nat)
    requires TimersOk(t) && StatesOk(AddEntry(t, key, l))
    ensures TimersOk(AddEntry(t, key, l))
  {
    AddEntrySame(t, key, l);
    TimersCarryOver(t, AddEntry(t, key, l));
  }

  lemma TimersCarryOver(t: Tables, t1: Tables)
    requires TimersOk(t) && StatesOk(t1) && SameStatesBut(t, t1)
    ensures TimersOk(t1)
  {
    forall i | 0 <= i < |t1.timers| ensures TimerOk(t1, i) {
      assert TimerOk(t, i);
    }
    forall j | 0 <= j < |t1.states| ensures PointerOk(t1, j) {
      if j < |t.states| {
        assert PointerOk(t, j);
      }
    }
  }

  lemma AddEntryStates(t: Tables, key: ForwardKey, l: nat)
    requires StatesOk(t) && key !in t.entries && l < |t.listeners|
    ensures StatesOk(AddEntry(t, key, l))
  {
    if Tracking(t.settings) && key.vip in t.vipStates {
      AddEntryAppends(t, key, l);
    } else if Tracking(t.settings) {
      AddEntryCreates(t, key, l);
    }
  }

  lemma AddEntryAppends(t: Tables, key: ForwardKey, l: nat)
    requires StatesOk(t) && key !in t.entries && l < |t.listeners| && Tracking(t.settings) && key.vip in t.vipStates
    ensures StatesOk(AddEntry(t, key, l))
  {
    var t1 := AddEntry(t, key, l);
    var sid := t.vipStates[key.vip];
    var before := t.states[sid].forwardKeys;
    assert forall i :: 0 <= i < |before| ==> before[i] in t.entries;
    assert KeysOk(t.states[sid]);
    assert KeysOk(t1.states[sid]);
  }

  lemma AddEntryCreates(t: Tables, key: ForwardKey, l: nat)
    requires StatesOk(t) && key !in t.entries && l < |t.listeners| && Tracking(t.settings) && key.vip !in t.vipStates
    ensures StatesOk(AddEntry(t, key, l))
  {
    var t1 := AddEntry(t, key, l);
    assert t1.states[|t.states|].forwardKeys == [key];
    assert forall i :: 0 <= i < |t.states| ==> t1.states[i] == t.states[i];
  }

  lemma TearDownStates(t: Tables, vip: Addr)
    requires StatesOk(t) && vip in t.vipStates
    ensures StatesOk(TearDown(t, vip))
  {
    var t' := TearDown(t, vip);
    var keys := t.states[t.vipStates[vip]].forwardKeys;
    forall v, i | v in t'.vipStates && 0 <= i < |t'.states[t'.vipStates[v]].forwardKeys|
      ensures t'.states[t'.vipStates[v]].forwardKeys[i] in t'.entries
    {
      var st := t.states[t.vipStates[v]];
      assert KeysOk(st) && st.forwardKeys[i].vip == v;
      assert forall j :: 0 <= j < |keys| ==> keys[j].vip == vip;
    }
  }

  lemma TearDownKeeps(t: Tables, vip: Addr)
    requires TablesOk(t, Some(vip)) && vip in t.vipStates
    ensures TablesOk(TearDown(t, vip), None)
  {
    TearDownStates(t, vip);
    SameTimers(t, TearDown(t, vip), None);
  }

  /** Dropping entries and states leaves the timers as they were. */
  lemma SameTimers(t: Tables, t': Tables, condemned: Option<Addr>)
    requires StatesOk(t) && TimersOk(t) && StatesOk(t')
    requires t'.states == t.states && t'.timers == t.timers && t'.now >= t.now
    requires forall v :: v in t'.vipStates ==> v in t.vipStates && t'.vipStates[v] == t.vipStates[v]
    requires forall v :: v in t'.vipStates && condemned != Some(v) ==> Pending(t, t.vipStates[v])
    ensures TablesOk(t', condemned)
  {
    forall i | 0 <= i < |t'.timers| ensures TimerOk(t', i) {
      assert TimerOk(t, i);
    }
    forall j | 0 <= j < |t'.states| ensures PointerOk(t', j) {
      assert PointerOk(t, j);
    }
    forall v | v in t'.vipStates && condemned != Some(v) ensures Pending(t', t'.vipStates[v]) {
      assert Pending(t, t.vipStates[v]);
    }
  }

  /** Closing listeners touches neither states nor timers. */
  lemma ListenersOnly(t: Tables, t': Tables, condemned: Option<Addr>)
    requires TablesOk(t, condemned)
    requires t' == t.(listeners := t'.listeners) && |t'.listeners| >= |t.listeners|
    ensures TablesOk(t', condemned)
  {
    SameTimers(t, t', condemned);
  }

  lemma StatusKeeps(t: Tables, i: nat, status: TimerStatus, condemned: Option<Addr>)
    requires StatesOk(t) && TimersOk(t) && i < |t.timers| && t.timers[i].due <= t.now && status != Armed
    requires forall v :: v in t.vipStates && condemned != Some(v) ==>
      Pending(t, t.vipStates[v]) && (status == Fired || t.states[t.vipStates[v]].timer != Some(i) || t.states[t.vipStates[v]].activeConns > 0)
    ensures TablesOk(SetStatus(t, i, status), condemned)
  {
    var t' := SetStatus(t, i, status);
    forall j | 0 <= j < |t'.timers| ensures TimerOk(t', j) {
      assert TimerOk(t, j);
    }
    forall j | 0 <= j < |t'.states| ensures PointerOk(t', j) {
      assert PointerOk(t, j);
    }
    forall v | v in t'.vipStates && condemned != Some(v) ensures Pending(t', t'.vipStates[v]) {
      assert Pending(t, t.vipStates[v]);
    }
  }

  /** Changing a connection count keeps the timer discipline when nothing is armed on that state. */
  lemma CountKeeps(t: Tables, sid: nat, n: int)
    requires StatesOk(t) && TimersOk(t) && sid < |t.states|
    requires forall i :: 0 <= i < |t.timers| && t.timers[i].owner == sid ==> t.timers[i].status != Armed
    ensures var t' := SetConns(t, sid, n); StatesOk(t') && TimersOk(t')
  {
    var t' := SetConns(t, sid, n);
    assert forall i :: 0 <= i < |t.states| ==> t'.states[i].forwardKeys == t.states[i].forwardKeys;
    forall i | 0 <= i < |t'.timers| ensures TimerOk(t', i) {
      assert TimerOk(t, i);
    }
    forall j | 0 <= j < |t'.states| ensures PointerOk(t', j) {
      assert PointerOk(t, j);
    }
  }

  lemma RegisterKeeps(t: Tables, sid: nat, condemned: Option<Addr>)
    requires TablesOk(t, condemned) && sid < |t.states| && t.states[sid].activeConns >= 0
    ensures TablesOk(Register(t, sid), condemned)
  {
    RegisterDiscipline(t, sid);
    RegisterPending(t, sid, condemned);
  }

  lemma RegisterDiscipline(t: Tables, sid: nat)
    requires StatesOk(t) && TimersOk(t) && sid < |t.states|
    ensures StatesOk(Register(t, sid)) && TimersOk(Register(t, sid))
  {
    var t' := Register(t, sid);
    assert forall i :: 0 <= i < |t.states| ==> t'.states[i].forwardKeys == t.states[i].forwardKeys;
    forall i | 0 <= i < |t'.timers| ensures TimerOk(t', i) {
      assert TimerOk(t, i);
    }
    forall j | 0 <= j < |t'.states| ensures PointerOk(t', j) {
      assert PointerOk(t, j);
    }
  }

  lemma RegisterPending(t: Tables, sid: nat, condemned: Option<Addr>)
    requires TablesOk(t, condemned) && sid < |t.states| && t.states[sid].activeConns >= 0
    ensures InRange(Register(t, sid)) && PendingExcept(Register(t, sid), condemned)
  {
    var t' := Register(t, sid);
    forall v | v in t'.vipStates && condemned != Some(v) ensures Pending(t', t'.vipStates[v]) {
      assert Pending(t, t.vipStates[v]);
      if t.vipStates[v] != sid {
        StopSparesOthers(t, sid, t.vipStates[v]);
      }
    }
  }

  lemma DeregisterKeeps(t: Tables, sid: nat, condemned: Option<Addr>)
    requires TablesOk(t, condemned) && sid < |t.states| && t.states[sid].activeConns > 0
    ensures TablesOk(Deregister(t, sid, VipOf(t.states[sid])), condemned)
  {
    var n, vip := t.states[sid].activeConns - 1, VipOf(t.states[sid]);
    var t1 := SetConns(t, sid, n);
    assert forall i :: 0 <= i < |t.timers| && t.timers[i].owner == sid ==> TimerOk(t, i);
    CountKeeps(t, sid, n);
    if n == 0 {
      ArmKeeps(t1, sid, vip);
    }
    DeregisterPending(t, sid, vip, condemned);
  }

  lemma DeregisterPending(t: Tables, sid: nat, vip: Addr, condemned: Option<Addr>)
    requires InRange(t) && PendingExcept(t, condemned) && sid < |t.states| && t.settings.idleTimeout > 0
    ensures InRange(Deregister(t, sid, vip)) && PendingExcept(Deregister(t, sid, vip), condemned)
  {
    var t' := Deregister(t, sid, vip);
    forall v | v in t'.vipStates && condemned != Some(v) ensures Pending(t', t'.vipStates[v]) {
      assert Pending(t, t.vipStates[v]);
    }
  }

  /** Dropping the entries of a set of keys together with every state that has one of them. */
  lemma DropKeeps(t: Tables, ks: set<ForwardKey>, vips: set<Addr>)
    requires TablesOk(t, None)
    requires forall k :: k in ks && k.vip in t.vipStates ==> k.vip in vips
    ensures TablesOk(DropStates(DropEntries(t, ks), vips), None)
  {
    var t' := DropStates(DropEntries(t, ks), vips);
    var ts := TimersOfVips(t, vips);
    var t2 := t.(timers := StopSet(t.timers, ts));
    StopKeeps(t, ts);
    DropStatesOk(t, ks, vips);
    forall v | v in t'.vipStates ensures Pending(t2, t.vipStates[v]) {
      DropSparesOthers(t, vips, ts, v);
    }
    SameTimers(t2, t', None);
  }

  lemma DropStatesOk(t: Tables, ks: set<ForwardKey>, vips: set<Addr>)
    requires StatesOk(t)
    requires forall k :: k in ks && k.vip in t.vipStates ==> k.vip in vips
    ensures StatesOk(DropStates(DropEntries(t, ks), vips))
  {
    var t' := DropStates(DropEntries(t, ks), vips);
    forall v, i | v in t'.vipStates && 0 <= i < |t'.states[t'.vipStates[v]].forwardKeys|
      ensures t'.states[t'.vipStates[v]].forwardKeys[i] in t'.entries
    {
      assert KeysOk(t.states[t.vipStates[v]]);
    }
  }

  lemma DropSparesOthers(t: Tables, vips: set<Addr>, ts: set<nat>, v: Addr)
    requires TablesOk(t, None) && v in t.vipStates && v !in vips
    requires forall i :: i in ts ==> exists u :: u in vips && u in t.vipStates && i in TimerOf(t.states[t.vipStates[u]])
    ensures Pending(t.(timers := StopSet(t.timers, ts)), t.vipStates[v])
  {
    assert Pending(t, t.vipStates[v]);
    forall u | u in vips && u in t.vipStates
      ensures t.states[t.vipStates[v]].timer.Some? ==> t.states[t.vipStates[v]].timer != t.states[t.vipStates[u]].timer
    {
      assert PointerOk(t, t.vipStates[u]) && PointerOk(t, t.vipStates[v]);
      assert VipOf(t.states[t.vipStates[u]]) == u;
    }
  }

  // ---------------------------------------------------------------- handlers

  /** The states are the old ones with the same connections and address, plus unused new ones. */
  ghost predicate SameConns(t: Tables, t': Tables) {
    && |t.states| <= |t'.states|
    && (forall i :: 0 <= i < |t.states| ==>
          && KeysOk(t.states[i]) && KeysOk(t'.states[i]) && VipOf(t'.states[i]) == VipOf(t.states[i])
          && t'.states[i].activeConns == t.states[i].activeConns)
    && (forall i :: |t.states| <= i < |t'.states| ==> t'.states[i].activeConns == 0)
  }

  lemma TouchConns(t: Tables, vip: Addr)
    requires StatesOk(t)
    ensures SameConns(t, Touch(t, vip))
  {
  }

  lemma TouchFrame(t: Tables, vip: Addr)
    requires InRange(t)
    ensures var t' := Touch(t, vip);
      t'.entries == t.entries && t'.listeners == t.listeners && t'.vipStates == t.vipStates
      && t'.settings == t.settings && t'.now == t.now && |t'.states| == |t.states|
  {
  }

  lemma AddEntryConns(t: Tables, key: ForwardKey, l: nat)
    requires StatesOk(t) && StatesOk(AddEntry(t, key, l))
    ensures SameConns(t, AddEntry(t, key, l))
  {
  }

  lemma InstallConns(t: Tables, key: ForwardKey, l: nat)
    requires StatesOk(t) && key !in t.entries && l < |t.listeners|
    ensures SameConns(t, Install(t, key, l))
  {
    AddEntryStates(t, key, l);
    AddEntryConns(t, key, l);
    if Tracking(t.settings) {
      TouchConns(AddEntry(t, key, l), key.vip);
    }
  }

  lemma HandlersFrame(s: State, s': State)
    requires HandlersInv(s) && InRange(s'.t) && s'.handlers == s.handlers && SameConns(s.t, s'.t)
    ensures HandlersInv(s')
  {
    forall i | |s.t.states| <= i < |s'.t.states| ensures ServingOn(s.handlers, i) == {} {
    }
  }

  /** One handler moves without entering or leaving the serving phase. */
  lemma HandlersMove(s: State, s': State, h: nat)
    requires HandlersInv(s) && s'.t == s.t && h < |s'.handlers|
    requires |s.handlers| <= |s'.handlers| <= |s.handlers| + 1
    requires forall j :: 0 <= j < |s'.handlers| && j != h ==> j < |s.handlers| && s'.handlers[j] == s.handlers[j]
    requires !s'.handlers[h].Serving? && (h < |s.handlers| ==> !s.handlers[h].Serving?)
    requires s'.handlers[h].Fetched? ==>
      s'.handlers[h].sid < |s.t.states| && KeysOk(s.t.states[s'.handlers[h].sid])
      && VipOf(s.t.states[s'.handlers[h].sid]) == s'.handlers[h].vip
    ensures HandlersInv(s')
  {
    forall i | 0 <= i < |s.t.states| ensures ServingOn(s'.handlers, i) == ServingOn(s.handlers, i) {
    }
  }

  lemma ServingUpdate(handlers: seq<HandlerPc>, h: nat, pc: HandlerPc, sid: nat)
    requires h < |handlers|
    ensures ServingOn(handlers[h := pc], sid)
            == if pc.Serving? && pc.sid == sid then ServingOn(handlers, sid) + {h} else ServingOn(handlers, sid) - {h}
  {
  }

  lemma HandlersRegister(s: State, h: nat)
    requires Inv(s) && Enabled(s, RegisterConn(h))
    ensures HandlersInv(Apply(s, RegisterConn(h)))
  {
    HandlersCount(s, h, Serving(s.handlers[h].vip, s.handlers[h].sid), Register(s.t, s.handlers[h].sid));
  }

  lemma HandlersDeregister(s: State, h: nat)
    requires Inv(s) && Enabled(s, DeregisterConn(h))
    ensures s.t.states[s.handlers[h].sid].activeConns > 0
    ensures HandlersInv(Apply(s, DeregisterConn(h)))
  {
    assert h in ServingOn(s.handlers, s.handlers[h].sid);
    HandlersCount(s, h, Finished, Deregister(s.t, s.handlers[h].sid, s.handlers[h].vip));
  }

  /** One handler starts or stops serving and its state's count follows. */
  lemma HandlersCount(s: State, h: nat, pc: HandlerPc, t': Tables)
    requires HandlersInv(s) && InRange(t') && h < |s.handlers|
    requires (s.handlers[h].Fetched? && pc == Serving(s.handlers[h].vip, s.handlers[h].sid)) || (s.handlers[h].Serving? && pc == Finished)
    requires |t'.states| == |s.t.states|
    requires forall i :: 0 <= i < |s.t.states| ==>
      && t'.states[i].forwardKeys == s.t.states[i].forwardKeys
      && t'.states[i].activeConns == s.t.states[i].activeConns + (if i != s.handlers[h].sid then 0 else if pc.Serving? then 1 else -1)
    ensures HandlersInv(s.(t := t', handlers := s.handlers[h := pc]))
  {
    forall i | 0 <= i < |s.t.states| ensures t'.states[i].activeConns == |ServingOn(s.handlers[h := pc], i)| {
      ServingCount(s.handlers, h, pc, i);
    }
  }

  lemma ServingCount(handlers: seq<HandlerPc>, h: nat, pc: HandlerPc, sid: nat)
    requires h < |handlers|
    requires (handlers[h].Fetched? && pc == Serving(handlers[h].vip, handlers[h].sid)) || (handlers[h].Serving? && pc == Finished)
    ensures |ServingOn(handlers[h := pc], sid)|
            == |ServingOn(handlers, sid)| + (if sid != handlers[h].sid then 0 else if pc.Serving? then 1 else -1)
  {
    ServingUpdate(handlers, h, pc, sid);
    var before := ServingOn(handlers, sid);
    assert h in before <==> handlers[h].Serving? && handlers[h].sid == sid;
    assert h !in before ==> before - {h} == before;
  }

  // ---------------------------------------------------------------- listeners

  /** Neither the listeners, the entries nor the calls changed. */
  lemma ListenersFrame(s: State, s': State)
    requires ListenersInv(s) && InRange(s'.t)
    requires s'.starts == s.starts && s'.t.entries == s.t.entries && s'.t.listeners == s.t.listeners
    ensures ListenersInv(s')
  {
    forall l | 0 <= l < |s'.t.listeners| && s'.t.listeners[l].open && !Entered(s'.t, l)
      ensures exists c :: 0 <= c < |s'.starts| && Holds(s'.starts[c], l)
    {
      assert !Entered(s.t, l);
    }
  }

  /** Entries are dropped and their listeners closed. */
  lemma ListenersDrop(s: State, s': State, ks: set<ForwardKey>)
    requires ListenersInv(s) && InRange(s'.t) && s'.starts == s.starts
    requires s'.t.entries == s.t.entries - ks
    requires s'.t.listeners == DropEntries(s.t, ks).listeners
    ensures ListenersInv(s')
  {
    forall l | 0 <= l < |s'.t.listeners| && s'.t.listeners[l].open && !Entered(s'.t, l)
      ensures exists c :: 0 <= c < |s'.starts| && Holds(s'.starts[c], l)
    {
      assert !Entered(s.t, l);
    }
  }

  lemma ListenersClose(s: State, l: nat)
    requires ListenersInv(s)
    ensures ListenersInv(s.(t := Close(s.t, l)))
  {
    var s' := s.(t := Close(s.t, l));
    forall i | 0 <= i < |s'.t.listeners| && s'.t.listeners[i].open && !Entered(s'.t, i)
      ensures exists c :: 0 <= c < |s'.starts| && Holds(s'.starts[c], i)
    {
      assert !Entered(s.t, i);
    }
  }

  /** A call that holds nothing, before and after, moves or begins. */
  lemma ListenersCall(s: State, s': State, c: nat)
    requires ListenersInv(s) && s'.t == s.t && c < |s'.starts|
    requires s'.starts == s.starts + [s'.starts[c]] || (c < |s.starts| && s'.starts == s.starts[c := s'.starts[c]])
    requires !s'.starts[c].Bound? && !s'.starts[c].Discarding?
    requires c < |s.starts| ==> !s.starts[c].Bound? && (s.starts[c].Discarding? ==> s.starts[c].held < |s.t.listeners| && !s.t.listeners[s.starts[c].held].open)
    ensures ListenersInv(s')
  {
    forall l | 0 <= l < |s'.t.listeners| && s'.t.listeners[l].open && !Entered(s'.t, l)
      ensures exists d :: 0 <= d < |s'.starts| && Holds(s'.starts[d], l)
    {
      assert !Entered(s.t, l);
      var d :| 0 <= d < |s.starts| && Holds(s.starts[d], l);
      assert Holds(s'.starts[d], l);
    }
  }

  lemma ListenersBind(s: State, c: nat)
    requires Inv(s) && Enabled(s, BindListener(c, true))
    ensures ListenersInv(Apply(s, BindListener(c, true)))
  {
    var s' := Apply(s, BindListener(c, true));
    var n := |s.t.listeners|;
    assert forall l :: 0 <= l < n ==> (Entered(s'.t, l) <==> Entered(s.t, l));
    forall l | 0 <= l < |s'.t.listeners| && s'.t.listeners[l].open && !Entered(s'.t, l)
      ensures exists d :: 0 <= d < |s'.starts| && Holds(s'.starts[d], l)
    {
      if l < n {
        var d :| 0 <= d < |s.starts| && Holds(s.starts[d], l);
        assert Holds(s'.starts[d], l);
      } else {
        assert Holds(s'.starts[c], l);
      }
    }
  }

  /** A call gives its listener to the entries, or sets it aside. */
  lemma ListenersHandOver(s: State, s': State, c: nat)
    requires ListenersInv(s) && InRange(s'.t) && c < |s.starts| && s.starts[c].Bound?
    requires s'.t.listeners == s.t.listeners
    requires var key, mine := s.starts[c].bkey, s.starts[c].held;
      if key in s.t.entries
      then s'.t.entries == s.t.entries && s'.starts == s.starts[c := Discarding(mine)]
      else s'.t.entries == s.t.entries[key := mine] && s'.starts == s.starts[c := Returned]
    ensures ListenersInv(s')
  {
    assert forall l :: 0 <= l < |s.t.listeners| && l != s.starts[c].held ==> (Entered(s'.t, l) <==> Entered(s.t, l));
    forall l | 0 <= l < |s'.t.listeners| && s'.t.listeners[l].open && !Entered(s'.t, l)
      ensures exists d :: 0 <= d < |s'.starts| && Holds(s'.starts[d], l)
    {
      assert !Entered(s.t, l);
      var d :| 0 <= d < |s.starts| && Holds(s.starts[d], l);
      assert Holds(s'.starts[d], l);
    }
  }

  lemma InstallFrame(t: Tables, key: ForwardKey, l: nat)
    requires InRange(t) && l < |t.listeners|
    ensures var t' := Install(t, key, l);
      t'.listeners == t.listeners && t'.entries == t.entries[key := l] && t'.settings == t.settings && t'.now == t.now
  {
    TouchFrame(AddEntry(t, key, l), key.vip);
  }

  // ---------------------------------------------------------------- every step keeps the invariant

  lemma CallStepKeepsInv(s: State, step: Step)
    requires Inv(s) && Enabled(s, step)
    requires step.StartCheck? || step.BindListener? || step.Discard?
    ensures Inv(Apply(s, step))
  {
    var s' := Apply(s, step);
    match step
    case StartCheck(key) =>
      if key in s.t.entries {
        TouchKeepsInv(s, key.vip);
        ListenersCall(s.(t := s'.t), s', |s.starts|);
      } else {
        ListenersCall(s, s', |s.starts|);
      }
    case BindListener(c, ok) =>
      if ok {
        ListenersOnly(s.t, s'.t, s.expiring);
        ListenersBind(s, c);
      } else {
        ListenersCall(s, s', c);
      }
    case Discard(c) =>
      ListenersOnly(s.t, s'.t, s.expiring);
      ListenersClose(s, s.starts[c].held);
      ListenersCall(s.(t := s'.t), s', c);
  }

  /** Tables with the same entries, listeners and connections leave the goroutines consistent. */
  lemma TablesKeepInv(s: State, t': Tables)
    requires Inv(s) && TablesOk(t', s.expiring) && SameConns(s.t, t')
    requires t'.entries == s.t.entries && t'.listeners == s.t.listeners && t'.vipStates == s.t.vipStates
    ensures Inv(s.(t := t'))
  {
    HandlersFrame(s, s.(t := t'));
    ListenersFrame(s, s.(t := t'));
  }

  lemma TouchKeepsInv(s: State, vip: Addr)
    requires Inv(s) && s.expiring.None?
    ensures Inv(s.(t := Touch(s.t, vip)))
  {
    TouchKeeps(s.t, vip, None);
    TouchConns(s.t, vip);
    TouchFrame(s.t, vip);
    TablesKeepInv(s, Touch(s.t, vip));
  }

  lemma HandOverKeepsInv(s: State, c: nat, t': Tables)
    requires Inv(s) && s.expiring.None? && c < |s.starts| && s.starts[c].Bound?
    requires TablesOk(t', None) && SameConns(s.t, t') && t'.listeners == s.t.listeners
    requires t'.entries == if s.starts[c].bkey in s.t.entries then s.t.entries else s.t.entries[s.starts[c].bkey := s.starts[c].held]
    ensures var pc := if s.starts[c].bkey in s.t.entries then Discarding(s.starts[c].held) else Returned;
      Inv(s.(t := t', starts := s.starts[c := pc]))
  {
    var pc := if s.starts[c].bkey in s.t.entries then Discarding(s.starts[c].held) else Returned;
    var s' := s.(t := t', starts := s.starts[c := pc]);
    HandlersFrame(s, s');
    ListenersHandOver(s, s', c);
  }

  lemma RecheckKeepsInv(s: State, step: Step)
    requires Inv(s) && Enabled(s, step) && step.StartRecheck?
    ensures Inv(Apply(s, step))
  {
    var c := step.call;
    var key, l := s.starts[c].bkey, s.starts[c].held;
    if key in s.t.entries {
      TouchKeeps(s.t, key.vip, None);
      TouchConns(s.t, key.vip);
      TouchFrame(s.t, key.vip);
      HandOverKeepsInv(s, c, Touch(s.t, key.vip));
    } else {
      InstallKeeps(s.t, key, l);
      InstallConns(s.t, key, l);
      InstallFrame(s.t, key, l);
      HandOverKeepsInv(s, c, Install(s.t, key, l));
    }
  }

  /** A callback that runs its check leaves every other address's callback pending. */
  lemma CheckKeepsTables(t: Tables, i: nat, condemned: Option<Addr>)
    requires TablesOk(t, None) && i < |t.timers| && t.timers[i].status == Fired
    requires condemned == if PassesCheck(t, t.timers[i].vip, t.timers[i].gen) then Some(t.timers[i].vip) else None
    ensures TablesOk(SetStatus(t, i, Ran), condemned)
  {
    assert TimerOk(t, i);
    forall v | v in t.vipStates && condemned != Some(v)
      ensures Pending(t, t.vipStates[v])
      ensures t.states[t.vipStates[v]].timer != Some(i) || t.states[t.vipStates[v]].activeConns > 0
    {
      assert PointerOk(t, t.vipStates[v]);
    }
    StatusKeeps(t, i, Ran, condemned);
  }

  lemma CheckKeepsInv(s: State, step: Step)
    requires Inv(s) && Enabled(s, step) && step.ExpireCheck?
    ensures Inv(Apply(s, step))
  {
    var s' := Apply(s, step);
    CheckKeepsTables(s.t, step.timer, s'.expiring);
    ListenersFrame(s, s');
  }

  lemma TimerStepKeepsInv(s: State, step: Step)
    requires Inv(s) && Enabled(s, step)
    requires step.Tick? || step.Fire? || step.ExpireDelete?
    ensures Inv(Apply(s, step))
  {
    var s' := Apply(s, step);
    match step
    case Tick =>
      SameTimers(s.t, s'.t, s.expiring);
      ListenersFrame(s, s');
    case Fire(i) =>
      StatusKeeps(s.t, i, Fired, s.expiring);
      ListenersFrame(s, s');
    case ExpireDelete =>
      TearDownKeeps(s.t, s.expiring.value);
      var keys := s.t.states[s.t.vipStates[s.expiring.value]].forwardKeys;
      ListenersDrop(s, s', KeySet(keys));
  }

  lemma HandlerStepKeepsInv(s: State, step: Step)
    requires Inv(s) && Enabled(s, step)
    requires step.Accept? || step.AcceptError? || step.FetchState? || step.RegisterConn? || step.DeregisterConn?
    ensures Inv(Apply(s, step))
  {
    var s' := Apply(s, step);
    match step
    case Accept(l) =>
      HandlersMove(s, s', |s.handlers|);
      ListenersFrame(s, s');
    case AcceptError(l) =>
      ListenersOnly(s.t, s'.t, s.expiring);
      ListenersClose(s, l);
    case FetchState(h) =>
      HandlersMove(s, s', h);
      ListenersFrame(s, s');
    case RegisterConn(h) =>
      RegisterKeepsInv(s, h);
    case DeregisterConn(h) =>
      DeregisterKeepsInv(s, h);
  }

  lemma RegisterKeepsInv(s: State, h: nat)
    requires Inv(s) && Enabled(s, RegisterConn(h))
    ensures Inv(Apply(s, RegisterConn(h)))
  {
    RegisterKeeps(s.t, s.handlers[h].sid, s.expiring);
    HandlersRegister(s, h);
    ListenersFrame(s, Apply(s, RegisterConn(h)));
  }

  lemma DeregisterKeepsInv(s: State, h: nat)
    requires Inv(s) && Enabled(s, DeregisterConn(h))
    ensures Inv(Apply(s, DeregisterConn(h)))
  {
    HandlersDeregister(s, h);
    DeregisterKeeps(s.t, s.handlers[h].sid, s.expiring);
    ListenersFrame(s, Apply(s, DeregisterConn(h)));
  }

  lemma StopKeepsInv(s: State, step: Step)
    requires Inv(s) && Enabled(s, step) && (step.StopContext? || step.StopAll?)
    ensures Inv(Apply(s, step))
  {
    var ks := if step.StopAll? then s.t.entries.Keys else KeysOf(s.t, step.ctx);
    DropKeeps(s.t, ks, if step.StopAll? then s.t.vipStates.Keys else VipsOf(ks));
    ListenersDrop(s, Apply(s, step), ks);
  }

  /** Every step of every goroutine keeps the invariant. */
  lemma StepKeepsInv(s: State, step: Step)
    requires Inv(s) && Enabled(s, step)
    ensures Inv(Apply(s, step))
  {
    if step.StartRecheck? {
      RecheckKeepsInv(s, step);
    } else if step.TouchVip? {
      TouchKeepsInv(s, step.vip);
    } else if step.ExpireCheck? {
      CheckKeepsInv(s, step);
    } else if step.StartCheck? || step.BindListener? || step.Discard? {
      CallStepKeepsInv(s, step);
    } else if step.StopContext? || step.StopAll? {
      StopKeepsInv(s, step);
    } else if step.Tick? || step.Fire? || step.ExpireDelete? {
      TimerStepKeepsInv(s, step);
    } else {
      HandlerStepKeepsInv(s, step);
    }
  }
}
