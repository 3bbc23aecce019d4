/** Every step of the forward manager seen from what it acts on: for each listener, entry, tracked
    address, state, timer and handler, exactly the steps that change it, and how. */
module ForwardEffects {
  import opened Wrappers
  import opened ForwardState
  import opened ForwardProtocol
  import opened ForwardSafety
  import opened ForwardRuns

  // ---------------------------------------------------------------- causes

  /** The step enters `k`: its `StartForward` call finds no rival entry. */
  predicate Enters(s: State, step: Step, k: ForwardKey)
    requires Enabled(s, step)
  {
    step.StartRecheck? && s.starts[step.call].bkey == k && k !in s.t.entries
  }

  /** The step removes `k` if it is entered. */
  predicate Removes(s: State, step: Step, k: ForwardKey)
    requires InRange(s.t) && Enabled(s, step) && (s.expiring.Some? ==> s.expiring.value in s.t.vipStates)
  {
    match step
    case ExpireDelete => k in s.t.states[s.t.vipStates[s.expiring.value]].forwardKeys
    case StopContext(ctx) => k.contextName == ctx
    case StopAll => true
    case _ => false
  }

  /** The step closes listener `l` if it is open: with its entry, because a rival was faster, or
      because accepting on it failed. */
  predicate Closes(s: State, step: Step, l: nat)
    requires InRange(s.t) && l < |s.t.listeners| && Enabled(s, step) && (s.expiring.Some? ==> s.expiring.value in s.t.vipStates)
  {
    match step
    case AcceptError(m) => m == l
    case Discard(c) => s.starts[c].held == l
    case _ => Entered(s.t, l) && Removes(s, step, s.t.listeners[l].key)
  }

  /** The step forgets the state of `v`. */
  ghost predicate Forgets(s: State, step: Step, v: Addr) {
    match step
    case ExpireDelete => s.expiring == Some(v)
    case StopContext(ctx) => exists k :: k in s.t.entries && k.contextName == ctx && k.vip == v
    case StopAll => true
    case _ => false
  }

  /** The step creates a state for `v`. */
  ghost predicate Creates(s: State, step: Step, v: Addr)
    requires Enabled(s, step)
  {
    Tracking(s.t.settings) && v !in s.t.vipStates && step.StartRecheck? && s.starts[step.call].bkey.vip == v
    && Enters(s, step, s.starts[step.call].bkey)
  }

  /** The step starts a new idle period for `sid`: a touch while nobody is connected, or the last
      connection closing. */
  predicate Rearms(s: State, step: Step, sid: nat)
    requires Enabled(s, step) && sid < |s.t.states|
  {
    Activity(s, step, sid) && !step.RegisterConn?
    && if step.DeregisterConn? then s.t.states[sid].activeConns == 1 else s.t.states[sid].activeConns <= 0
  }

  /** The step ends the idle period of `sid`: a touch, a connection, or the state being shut down. */
  ghost predicate Disarms(s: State, step: Step, sid: nat)
    requires Enabled(s, step)
  {
    || (Activity(s, step, sid) && !step.DeregisterConn?)
    || ((step.StopContext? || step.StopAll?) && exists v :: Tracks(s, v, sid) && Forgets(s, step, v))
  }

  // ---------------------------------------------------------------- the sections

  lemma InstallTables(t: Tables, key: ForwardKey, l: nat)
    requires InRange(t) && l < |t.listeners|
    ensures var t' := Install(t, key, l);
      && t'.listeners == t.listeners && t'.entries == t.entries[key := l]
      && t'.vipStates == if Tracking(t.settings) && key.vip !in t.vipStates then t.vipStates[key.vip := |t.states|] else t.vipStates
  {
    TouchFrame(AddEntry(t, key, l), key.vip);
  }

  predicate Touching(step: Step) {
    step.StartCheck? || step.StartRecheck? || step.TouchVip?
  }

  /** The listeners, entries and tracked addresses after a step that touches or enters. */
  ghost predicate TouchingOk(s: State, step: Step, t': Tables)
    requires Enabled(s, step)
  {
    && t'.listeners == s.t.listeners
    && (forall k :: k in t'.entries <==> k in s.t.entries || Enters(s, step, k))
    && (forall k :: k in t'.entries ==> t'.entries[k] == if k in s.t.entries then s.t.entries[k] else s.starts[step.call].held)
    && (forall v :: v in t'.vipStates <==> v in s.t.vipStates || Creates(s, step, v))
    && (forall v :: v in t'.vipStates ==> t'.vipStates[v] == if v in s.t.vipStates then s.t.vipStates[v] else |s.t.states|)
  }

  /** Whatever a touch or an install does, besides entering its key it does to states and timers only. */
  lemma TouchingTables(s: State, step: Step)
    requires Inv(s) && Enabled(s, step) && Touching(step)
    ensures TouchingOk(s, step, Apply(s, step).t)
  {
    match step
    case StartCheck(key) => TouchFrame(s.t, key.vip);
    case TouchVip(vip) => TouchFrame(s.t, vip);
    case StartRecheck(c) => RecheckTables(s, c);
  }

  lemma RecheckTables(s: State, c: nat)
    requires InRange(s.t) && Enabled(s, StartRecheck(c)) && s.starts[c].held < |s.t.listeners|
    ensures var key, l := s.starts[c].bkey, s.starts[c].held;
      TouchingOk(s, StartRecheck(c), if key in s.t.entries then Touch(s.t, key.vip) else Install(s.t, key, l))
  {
    var key := s.starts[c].bkey;
    if key in s.t.entries {
      TouchFrame(s.t, key.vip);
    } else {
      InstallTables(s.t, key, s.starts[c].held);
    }
  }

  // ---------------------------------------------------------------- listeners and entries

  /** A listener keeps its key for good, and a step closes it exactly when it is one of the causes. */
  lemma ListenerFate(s: State, step: Step, l: nat)
    requires Inv(s) && Enabled(s, step) && l < |s.t.listeners|
    ensures var t' := Apply(s, step).t;
      && l < |t'.listeners| && t'.listeners[l].key == s.t.listeners[l].key
      && (t'.listeners[l].open <==> s.t.listeners[l].open && !Closes(s, step, l))
  {
    if Touching(step) {
      TouchingTables(s, step);
    } else if step.ExpireDelete? {
      DropCloses(s.t, KeySet(s.t.states[s.t.vipStates[s.expiring.value]].forwardKeys), l);
    } else if step.StopContext? {
      DropCloses(s.t, KeysOf(s.t, step.ctx), l);
    } else if step.StopAll? {
      DropCloses(s.t, s.t.entries.Keys, l);
    }
  }

  lemma DropCloses(t: Tables, ks: set<ForwardKey>, l: nat)
    requires InRange(t) && l < |t.listeners| && forall k :: k in t.entries ==> t.listeners[t.entries[k]].key == k
    ensures var t' := DropEntries(t, ks);
      && t'.listeners[l].key == t.listeners[l].key
      && (t'.listeners[l].open <==> t.listeners[l].open && !(Entered(t, l) && t.listeners[l].key in ks))
  {
    var ls := set k | k in ks && k in t.entries :: t.entries[k];
    assert l in ls <==> Entered(t, l) && t.listeners[l].key in ks;
  }

  /** The only new listener is the one a `StartForward` call binds, open and for its own key. */
  lemma NewListener(s: State, step: Step)
    requires Inv(s) && Enabled(s, step)
    ensures var after := Apply(s, step).t.listeners;
      if step.BindListener? && step.ok
      then |after| == |s.t.listeners| + 1 && after[|s.t.listeners|] == Listener(s.starts[step.call].key, true)
      else |after| == |s.t.listeners|
  {
    if Touching(step) {
      TouchingTables(s, step);
    }
  }

  /** An entry is there after a step exactly when it was and was not removed, with the same listener,
      or is entered by the step, with the listener that call holds. */
  lemma EntryFate(s: State, step: Step, k: ForwardKey)
    requires Inv(s) && Enabled(s, step)
    ensures var t' := Apply(s, step).t;
      && (k in t'.entries <==> (k in s.t.entries && !Removes(s, step, k)) || Enters(s, step, k))
      && (k in t'.entries ==> t'.entries[k] == if k in s.t.entries then s.t.entries[k] else s.starts[step.call].held)
  {
    if Touching(step) {
      TouchingTables(s, step);
    }
  }

  /** An address is tracked after a step exactly when it was and was not forgotten, by the same state,
      or the step creates a state for it. */
  lemma TrackedFate(s: State, step: Step, v: Addr)
    requires Inv(s) && Enabled(s, step)
    ensures var t' := Apply(s, step).t;
      && (v in t'.vipStates <==> (v in s.t.vipStates && !Forgets(s, step, v)) || Creates(s, step, v))
      && (v in t'.vipStates ==> t'.vipStates[v] == if v in s.t.vipStates then s.t.vipStates[v] else |s.t.states|)
  {
    if Touching(step) {
      TouchingTables(s, step);
    } else {
      ForgottenTables(s, step, v);
    }
  }

  lemma ForgottenTables(s: State, step: Step, v: Addr)
    requires Inv(s) && Enabled(s, step) && !Touching(step)
    ensures var t' := Apply(s, step).t;
      && (v in t'.vipStates <==> v in s.t.vipStates && !Forgets(s, step, v))
      && (v in t'.vipStates ==> t'.vipStates[v] == s.t.vipStates[v])
  {
    if step.StopContext? {
      VipsOfContext(s.t, step.ctx, v);
    }
  }

  lemma VipsOfContext(t: Tables, ctx: string, v: Addr)
    ensures v in VipsOf(KeysOf(t, ctx)) <==> exists k :: k in t.entries && k.contextName == ctx && k.vip == v
  {
    forall k | k in t.entries && k.contextName == ctx && k.vip == v ensures v in VipsOf(KeysOf(t, ctx)) {
      assert k in KeysOf(t, ctx);
    }
  }

  // ---------------------------------------------------------------- states

  /** What a touch does to one state. */
  lemma TouchState(t: Tables, vip: Addr, sid: nat)
    requires StatesOk(t) && sid < |t.states|
    ensures var t' := Touch(t, vip); var st := t.states[sid];
      && |t'.states| == |t.states|
      && t'.states[sid] == if vip in t.vipStates && t.vipStates[vip] == sid && st.activeConns <= 0
                           then st.(generation := st.generation + 1, timer := Some(|t.timers|)) else st
  {
  }

  /** What a step makes of a state. */
  function StateAfter(s: State, step: Step, sid: nat): VipState
    requires Enabled(s, step) && sid < |s.t.states|
  {
    var st := s.t.states[sid];
    var conns := st.activeConns + if step.RegisterConn? && s.handlers[step.handler].sid == sid then 1
                                  else if step.DeregisterConn? && s.handlers[step.handler].sid == sid then -1 else 0;
    var keys := st.forwardKeys + if step.StartRecheck? && Activity(s, step, sid) && s.starts[step.call].bkey !in s.t.entries
                                 then [s.starts[step.call].bkey] else [];
    if Rearms(s, step, sid) then VipState(Some(|s.t.timers|), st.generation + 1, conns, keys)
    else VipState(st.timer, st.generation, conns, keys)
  }

  /** A state counts connections up and down, remembers the keys entered on its address, and gets a new
      generation and a new timer exactly when a new idle period starts. Nothing else changes it. */
  lemma StateFate(s: State, step: Step, sid: nat)
    requires Inv(s) && Enabled(s, step) && sid < |s.t.states|
    ensures sid < |Apply(s, step).t.states| && Apply(s, step).t.states[sid] == StateAfter(s, step, sid)
  {
    if Touching(step) {
      TouchingState(s, step, sid);
    } else if step.RegisterConn? || step.DeregisterConn? {
      ConnState(s, step, sid);
    } else {
      SameStates(s, step);
    }
  }

  lemma SameStates(s: State, step: Step)
    requires Inv(s) && Enabled(s, step) && !Touching(step) && !step.RegisterConn? && !step.DeregisterConn?
    ensures Apply(s, step).t.states == s.t.states
  {
  }

  lemma ConnState(s: State, step: Step, sid: nat)
    requires Inv(s) && Enabled(s, step) && sid < |s.t.states| && (step.RegisterConn? || step.DeregisterConn?)
    ensures sid < |Apply(s, step).t.states| && Apply(s, step).t.states[sid] == StateAfter(s, step, sid)
  {
    assert s.t.states[sid].forwardKeys + [] == s.t.states[sid].forwardKeys;
  }

  /** A plain touch starts a new idle period for the state it finds, if nobody is connected. */
  lemma TouchedAfter(s: State, step: Step, sid: nat)
    requires Enabled(s, step) && (step.StartCheck? || step.TouchVip?) && sid < |s.t.states|
    ensures var st := s.t.states[sid];
      StateAfter(s, step, sid) == if Activity(s, step, sid) && st.activeConns <= 0
                                  then st.(generation := st.generation + 1, timer := Some(|s.t.timers|)) else st
  {
    assert s.t.states[sid].forwardKeys + [] == s.t.states[sid].forwardKeys;
  }

  lemma TouchingState(s: State, step: Step, sid: nat)
    requires Inv(s) && Enabled(s, step) && Touching(step) && sid < |s.t.states|
    ensures sid < |Apply(s, step).t.states| && Apply(s, step).t.states[sid] == StateAfter(s, step, sid)
  {
    if step.StartRecheck? {
      RecheckState(s, step.call, sid);
    } else {
      TouchedAfter(s, step, sid);
      TouchState(s.t, if step.StartCheck? then step.key.vip else step.vip, sid);
    }
  }

  /** What the second section of a call makes of a state. */
  lemma RecheckAfter(s: State, c: nat, sid: nat)
    requires Enabled(s, StartRecheck(c)) && sid < |s.t.states|
    ensures var st, key := s.t.states[sid], s.starts[c].bkey;
      var st' := if key in s.t.entries then st else st.(forwardKeys := st.forwardKeys + [key]);
      StateAfter(s, StartRecheck(c), sid) ==
        if !Tracks(s, key.vip, sid) then st
        else if st.activeConns <= 0 then st'.(generation := st.generation + 1, timer := Some(|s.t.timers|)) else st'
  {
    assert s.t.states[sid].forwardKeys + [] == s.t.states[sid].forwardKeys;
  }

  lemma RecheckState(s: State, c: nat, sid: nat)
    requires Inv(s) && Enabled(s, StartRecheck(c)) && sid < |s.t.states|
    ensures var s' := Apply(s, StartRecheck(c)); sid < |s'.t.states| && s'.t.states[sid] == StateAfter(s, StartRecheck(c), sid)
  {
    RecheckAfter(s, c, sid);
    if s.starts[c].bkey in s.t.entries {
      TouchState(s.t, s.starts[c].bkey.vip, sid);
    } else {
      InstallState(s.t, s.starts[c].bkey, s.starts[c].held, sid);
    }
  }

  lemma InstallState(t: Tables, key: ForwardKey, l: nat, sid: nat)
    requires StatesOk(t) && key !in t.entries && l < |t.listeners| && sid < |t.states|
    ensures var t' := Install(t, key, l); var st := t.states[sid];
      sid < |t'.states| && t'.states[sid] ==
        if key.vip in t.vipStates && t.vipStates[key.vip] == sid
        then (if st.activeConns <= 0 then VipState(Some(|t.timers|), st.generation + 1, st.activeConns, st.forwardKeys + [key])
              else st.(forwardKeys := st.forwardKeys + [key]))
        else st
  {
    AddEntryStates(t, key, l);
    TouchState(AddEntry(t, key, l), key.vip, sid);
  }

  /** A new state is one that a `StartForward` call creates for its address, with its timer running. */
  lemma NewState(s: State, step: Step)
    requires Inv(s) && Enabled(s, step)
    ensures var after := Apply(s, step).t.states;
      if step.StartRecheck? && Creates(s, step, s.starts[step.call].bkey.vip)
      then |after| == |s.t.states| + 1 && after[|s.t.states|] == VipState(Some(|s.t.timers|), 1, 0, [s.starts[step.call].bkey])
      else |after| == |s.t.states|
  {
    match step
    case StartCheck(key) => TouchSize(s.t, key.vip);
    case TouchVip(vip) => TouchSize(s.t, vip);
    case StartRecheck(c) =>
      if s.starts[c].bkey in s.t.entries {
        TouchSize(s.t, s.starts[c].bkey.vip);
      } else {
        InstallNewState(s.t, s.starts[c].bkey, s.starts[c].held);
      }
    case _ =>
  }

  lemma TouchSize(t: Tables, vip: Addr)
    requires InRange(t)
    ensures |Touch(t, vip).states| == |t.states|
  {
  }

  lemma InstallNewState(t: Tables, key: ForwardKey, l: nat)
    requires StatesOk(t) && key !in t.entries && l < |t.listeners|
    ensures var after := Install(t, key, l).states;
      if Tracking(t.settings) && key.vip !in t.vipStates
      then |after| == |t.states| + 1 && after[|t.states|] == VipState(Some(|t.timers|), 1, 0, [key])
      else |after| == |t.states|
  {
    AddEntryStates(t, key, l);
    var t1 := AddEntry(t, key, l);
    TouchSize(t1, key.vip);
    if Tracking(t.settings) && key.vip !in t.vipStates {
      TouchState(t1, key.vip, |t.states|);
    }
  }

  // ---------------------------------------------------------------- timers

  /** What a step makes of the status of a timer. */
  ghost function StatusAfter(s: State, step: Step, i: nat): TimerStatus
    requires Enabled(s, step) && i < |s.t.timers|
  {
    var timer := s.t.timers[i];
    if step == Fire(i) then Fired
    else if step == ExpireCheck(i) then Ran
    else if timer.status == Armed && Disarms(s, step, timer.owner) then Stopped
    else timer.status
  }

  /** A timer that is armed is the one its state points at. */
  lemma ArmedIsPointedAt(t: Tables, i: nat, sid: nat)
    requires TimersOk(t) && i < |t.timers| && t.timers[i].status == Armed && sid < |t.states|
    ensures i in TimerOf(t.states[sid]) <==> t.timers[i].owner == sid
  {
    assert TimerOk(t, i) && PointerOk(t, sid);
  }

  /** What a touch does to one timer. */
  lemma TouchTimer(t: Tables, vip: Addr, i: nat)
    requires StatesOk(t) && TimersOk(t) && i < |t.timers|
    ensures var t' := Touch(t, vip); var timer := t.timers[i];
      && i < |t'.timers|
      && t'.timers[i] == if timer.status == Armed && vip in t.vipStates && t.vipStates[vip] == timer.owner
                         then timer.(status := Stopped) else timer
  {
    if t.timers[i].status == Armed && vip in t.vipStates {
      ArmedIsPointedAt(t, i, t.vipStates[vip]);
    }
  }

  /** A timer keeps what it was armed with, and its status changes exactly when it fires, runs, or is
      stopped because its state's idle period ends. */
  lemma TimerFate(s: State, step: Step, i: nat)
    requires Inv(s) && Enabled(s, step) && i < |s.t.timers|
    ensures i < |Apply(s, step).t.timers|
    ensures Apply(s, step).t.timers[i] == s.t.timers[i].(status := StatusAfter(s, step, i))
  {
    if Touching(step) {
      TouchingTimer(s, step, i);
    } else if step.StopContext? || step.StopAll? {
      StoppedTimer(s, step, i);
    } else if step.RegisterConn? {
      RegisteredTimer(s, step, i);
    } else {
      OtherTimer(s, step, i);
    }
  }

  /** No timer is stopped by any other step. */
  lemma OtherStatus(s: State, step: Step, i: nat)
    requires Enabled(s, step) && i < |s.t.timers|
    requires !Touching(step) && !step.StopContext? && !step.StopAll? && !step.RegisterConn?
    ensures StatusAfter(s, step, i) == if step == Fire(i) then Fired else if step == ExpireCheck(i) then Ran else s.t.timers[i].status
  {
  }

  lemma OtherTimer(s: State, step: Step, i: nat)
    requires Inv(s) && Enabled(s, step) && i < |s.t.timers|
    requires !Touching(step) && !step.StopContext? && !step.StopAll? && !step.RegisterConn?
    ensures i < |Apply(s, step).t.timers|
    ensures Apply(s, step).t.timers[i] == s.t.timers[i].(status := StatusAfter(s, step, i))
  {
    OtherStatus(s, step, i);
  }

  lemma RegisteredTimer(s: State, step: Step, i: nat)
    requires Inv(s) && Enabled(s, step) && step.RegisterConn? && i < |s.t.timers|
    ensures i < |Apply(s, step).t.timers|
    ensures Apply(s, step).t.timers[i] == s.t.timers[i].(status := StatusAfter(s, step, i))
  {
    if s.t.timers[i].status == Armed {
      ArmedIsPointedAt(s.t, i, s.handlers[step.handler].sid);
    }
  }

  /** A step that touches stops a timer exactly when it is activity on the timer's state. */
  lemma TouchingStatus(s: State, step: Step, i: nat)
    requires Enabled(s, step) && Touching(step) && i < |s.t.timers|
    ensures StatusAfter(s, step, i) ==
      if s.t.timers[i].status == Armed && Activity(s, step, s.t.timers[i].owner) then Stopped else s.t.timers[i].status
  {
  }

  lemma TouchingTimer(s: State, step: Step, i: nat)
    requires Inv(s) && Enabled(s, step) && Touching(step) && i < |s.t.timers|
    ensures i < |Apply(s, step).t.timers|
    ensures Apply(s, step).t.timers[i] == s.t.timers[i].(status := StatusAfter(s, step, i))
  {
    TouchingStatus(s, step, i);
    if step.StartRecheck? {
      RecheckTimer(s, step.call, i);
    } else if step.StartCheck? {
      TouchTimer(s.t, step.key.vip, i);
    } else {
      TouchTimer(s.t, step.vip, i);
    }
  }

  lemma RecheckTimer(s: State, c: nat, i: nat)
    requires Inv(s) && Enabled(s, StartRecheck(c)) && i < |s.t.timers|
    ensures var t' := Apply(s, StartRecheck(c)).t; var timer := s.t.timers[i];
      i < |t'.timers| && t'.timers[i] ==
        if timer.status == Armed && Activity(s, StartRecheck(c), timer.owner) then timer.(status := Stopped) else timer
  {
    if s.starts[c].bkey in s.t.entries {
      TouchTimer(s.t, s.starts[c].bkey.vip, i);
    } else {
      InstallTimer(s.t, s.starts[c].bkey, s.starts[c].held, i);
    }
  }

  lemma InstallTimer(t: Tables, key: ForwardKey, l: nat, i: nat)
    requires TablesOk(t, None) && key !in t.entries && l < |t.listeners| && i < |t.timers|
    ensures var t' := Install(t, key, l); var timer := t.timers[i];
      && i < |t'.timers|
      && t'.timers[i] == if timer.status == Armed && key.vip in t.vipStates && t.vipStates[key.vip] == timer.owner
                         then timer.(status := Stopped) else timer
  {
    AddEntryKeeps(t, key, l);
    TouchTimer(AddEntry(t, key, l), key.vip, i);
    assert TimerOk(t, i);
  }

  lemma StoppedTimer(s: State, step: Step, i: nat)
    requires Inv(s) && Enabled(s, step) && (step.StopContext? || step.StopAll?) && i < |s.t.timers|
    ensures i < |Apply(s, step).t.timers|
    ensures Apply(s, step).t.timers[i] == s.t.timers[i].(status := StatusAfter(s, step, i))
  {
    var vips := if step.StopAll? then s.t.vipStates.Keys else VipsOf(KeysOf(s.t, step.ctx));
    forall v | v in s.t.vipStates ensures v in vips <==> Forgets(s, step, v) {
      if step.StopContext? {
        VipsOfContext(s.t, step.ctx, v);
      }
    }
    if s.t.timers[i].status == Armed {
      StoppedVips(s, step, vips, i);
    }
  }

  lemma StoppedVips(s: State, step: Step, vips: set<Addr>, i: nat)
    requires Inv(s) && Enabled(s, step) && (step.StopContext? || step.StopAll?)
    requires i < |s.t.timers| && s.t.timers[i].status == Armed
    requires forall v :: v in s.t.vipStates ==> (v in vips <==> Forgets(s, step, v))
    ensures i in TimersOfVips(s.t, vips) <==> Disarms(s, step, s.t.timers[i].owner)
  {
    forall v | v in s.t.vipStates
      ensures i in TimerOf(s.t.states[s.t.vipStates[v]]) <==> Tracks(s, v, s.t.timers[i].owner)
    {
      ArmedIsPointedAt(s.t, i, s.t.vipStates[v]);
    }
  }

  /** What a new timer is: armed, for the generation and the address of its state, and due a full idle
      period from now. */
  ghost predicate JustArmed(t: Tables, t': Tables, i: nat)
    requires i < |t'.timers|
  {
    var timer := t'.timers[i];
    && i == |t.timers| && timer.status == Armed && timer.due == t.now + t.settings.idleTimeout
    && timer.owner < |t'.states| && timer.gen == t'.states[timer.owner].generation
  }

  lemma TouchArms(t: Tables, vip: Addr, i: nat)
    requires InRange(t) && |t.timers| <= i < |Touch(t, vip).timers|
    ensures JustArmed(t, Touch(t, vip), i)
  {
  }

  lemma StepArms(s: State, step: Step, i: nat)
    requires Inv(s) && Enabled(s, step) && |s.t.timers| <= i < |Apply(s, step).t.timers|
    ensures JustArmed(s.t, Apply(s, step).t, i)
  {
    match step
    case StartCheck(key) => TouchArms(s.t, key.vip, i);
    case TouchVip(vip) => TouchArms(s.t, vip, i);
    case StartRecheck(c) =>
      if s.starts[c].bkey in s.t.entries {
        TouchArms(s.t, s.starts[c].bkey.vip, i);
      } else {
        InstallArms(s.t, s.starts[c].bkey, s.starts[c].held, i);
      }
    case _ =>
  }

  lemma InstallArms(t: Tables, key: ForwardKey, l: nat, i: nat)
    requires InRange(t) && l < |t.listeners| && |t.timers| <= i < |Install(t, key, l).timers|
    ensures JustArmed(t, Install(t, key, l), i)
  {
    TouchArms(AddEntry(t, key, l), key.vip, i);
  }

  /** The timers a step arms are those of the states it starts an idle period for, or creates. */
  lemma NewTimer(s: State, step: Step, i: nat)
    requires Inv(s) && Enabled(s, step) && |s.t.timers| <= i < |Apply(s, step).t.timers|
    ensures var s' := Apply(s, step); var timer := s'.t.timers[i];
      && JustArmed(s.t, s'.t, i) && KeysOk(s'.t.states[timer.owner]) && timer.vip == VipOf(s'.t.states[timer.owner])
      && (timer.owner < |s.t.states| ==> Rearms(s, step, timer.owner))
  {
    StepArms(s, step, i);
    StepKeepsInv(s, step);
    var s' := Apply(s, step);
    ArmedOwner(s'.t, i);
    if s'.t.timers[i].owner < |s.t.states| {
      StateFate(s, step, s'.t.timers[i].owner);
      assert PointerOk(s.t, s'.t.timers[i].owner);
    }
  }

  lemma ArmedOwner(t: Tables, i: nat)
    requires TimersOk(t) && i < |t.timers| && t.timers[i].status == Armed
    ensures t.timers[i].owner < |t.states| && KeysOk(t.states[t.timers[i].owner])
    ensures t.timers[i].vip == VipOf(t.states[t.timers[i].owner]) && t.states[t.timers[i].owner].timer == Some(i)
  {
    assert TimerOk(t, i);
  }

  // ---------------------------------------------------------------- the check and the clock

  /** A callback goes on to tear its address down exactly when the address is tracked, has the
      callback's generation and nobody is connected. */
  lemma CheckFate(s: State, step: Step)
    requires Inv(s) && Enabled(s, step)
    ensures var s' := Apply(s, step);
      && s'.t.settings == s.t.settings && s'.t.now == s.t.now + (if step.Tick? then 1 else 0)
      && (!step.ExpireCheck? ==> s'.expiring == if step.ExpireDelete? then None else s.expiring)
      && (step.ExpireCheck? ==>
            var timer := s.t.timers[step.timer];
            && (s'.expiring.Some? <==> timer.vip in s.t.vipStates && s.t.states[s.t.vipStates[timer.vip]].generation == timer.gen
                                       && s.t.states[s.t.vipStates[timer.vip]].activeConns == 0)
            && (s'.expiring.Some? ==> s'.expiring.value == timer.vip))
  {
    if step.ExpireCheck? {
      assert forall sid :: 0 <= sid < |s.t.states| ==> s.t.states[sid].activeConns >= 0;
    } else if step.StartRecheck? {
      InstallFrame(s.t, s.starts[step.call].bkey, s.starts[step.call].held);
      TouchFrame(s.t, s.starts[step.call].bkey.vip);
    } else if step.StartCheck? {
      TouchFrame(s.t, step.key.vip);
    } else if step.TouchVip? {
      TouchFrame(s.t, step.vip);
    }
  }

  // ---------------------------------------------------------------- goroutines

  /** A connection is handled for the address of the listener it came in on. Its handler takes the state
      that tracks that address, if any, registers on it and later deregisters; nothing else moves it. */
  lemma HandlerFate(s: State, step: Step)
    requires Inv(s) && Enabled(s, step)
    ensures Apply(s, step).handlers ==
      match step
      case Accept(l) => s.handlers + [Accepted(s.t.listeners[l].key.vip)]
      case FetchState(h) =>
        var vip := s.handlers[h].vip;
        s.handlers[h := if vip in s.t.vipStates then Fetched(vip, s.t.vipStates[vip]) else Untracked]
      case RegisterConn(h) => s.handlers[h := Serving(s.handlers[h].vip, s.handlers[h].sid)]
      case DeregisterConn(h) => s.handlers[h := Finished]
      case _ => s.handlers
  {
  }

  /** A `StartForward` call returns at once if its key is entered; else it binds a listener, and enters it
      or, if a rival was faster, closes it; then it returns. */
  lemma CallFate(s: State, step: Step)
    requires Inv(s) && Enabled(s, step)
    ensures Apply(s, step).starts ==
      match step
      case StartCheck(key) => s.starts + [if key in s.t.entries then Returned else Binding(key)]
      case BindListener(c, ok) => s.starts[c := if ok then Bound(s.starts[c].key, |s.t.listeners|) else Returned]
      case StartRecheck(c) => s.starts[c := if s.starts[c].bkey in s.t.entries then Discarding(s.starts[c].held) else Returned]
      case Discard(c) => s.starts[c := Returned]
      case _ => s.starts
  {
  }

  /** Nobody is stuck: with the lock free every unfinished call and handler can take its next step, with
      the lock taken the expiry that holds it can, and a due timer can fire. */
  lemma NobodyStuck(s: State)
    ensures s.expiring.Some? ==> Enabled(s, ExpireDelete)
    ensures forall c :: 0 <= c < |s.starts| && s.starts[c].Binding? ==> Enabled(s, BindListener(c, true)) && Enabled(s, BindListener(c, false))
    ensures forall c :: 0 <= c < |s.starts| && s.starts[c].Discarding? ==> Enabled(s, Discard(c))
    ensures forall c :: 0 <= c < |s.starts| && s.starts[c].Bound? && s.expiring.None? ==> Enabled(s, StartRecheck(c))
    ensures forall h :: 0 <= h < |s.handlers| && s.handlers[h].Accepted? && s.expiring.None? ==> Enabled(s, FetchState(h))
    ensures forall h :: 0 <= h < |s.handlers| && s.handlers[h].Fetched? ==> Enabled(s, RegisterConn(h))
    ensures forall h :: 0 <= h < |s.handlers| && s.handlers[h].Serving? ==> Enabled(s, DeregisterConn(h))
    ensures forall i :: 0 <= i < |s.t.timers| && s.t.timers[i].status == Armed && s.t.timers[i].due <= s.t.now ==> Enabled(s, Fire(i))
    ensures forall i :: 0 <= i < |s.t.timers| && s.t.timers[i].status == Fired && s.expiring.None? ==> Enabled(s, ExpireCheck(i))
    ensures forall l :: 0 <= l < |s.t.listeners| && s.t.listeners[l].open ==> Enabled(s, Accept(l)) && Enabled(s, AcceptError(l))
  {
  }

  /** Idle expiry is on exactly with a positive timeout and a releaser: otherwise no run ever tracks an
      address; with both, entering a key tracks its address. */
  lemma ExpiryOnIff(c: Settings, steps: seq<Step>, key: ForwardKey)
    requires IsRun(c, steps)
    ensures c.idleTimeout <= 0 || !c.hasReleaser ==> After(c, steps).t.vipStates == map[]
    ensures c.idleTimeout > 0 && c.hasReleaser ==>
      forall call :: Enabled(After(c, steps), StartRecheck(call)) && Enters(After(c, steps), StartRecheck(call), key) ==>
        key.vip in Apply(After(c, steps), StartRecheck(call)).t.vipStates
  {
    var s := After(c, steps);
    SettingsFixed(c, steps);
    forall call | Enabled(s, StartRecheck(call)) && Enters(s, StartRecheck(call), key) && c.idleTimeout > 0 && c.hasReleaser
      ensures key.vip in Apply(s, StartRecheck(call)).t.vipStates
    {
      TrackedFate(s, StartRecheck(call), key.vip);
    }
  }

  // ---------------------------------------------------------------- shutdown

  /** Nothing is entered or tracked, the only open listeners are those that `StartForward` calls in
      flight have bound, and no timer of an address that was tracked is armed. */
  ghost predicate NothingLeft(s: State, s': State) {
    && s'.t.entries == map[] && s'.t.vipStates == map[]
    && (forall l :: 0 <= l < |s'.t.listeners| && s'.t.listeners[l].open ==> exists d :: 0 <= d < |s'.starts| && Holds(s'.starts[d], l))
    && |s'.t.timers| == |s.t.timers|
    && (forall i, v :: 0 <= i < |s.t.timers| && Tracks(s, v, s.t.timers[i].owner) ==> s'.t.timers[i].status != Armed)
  }

  lemma ShutdownLeavesNothing(c: Settings, steps: seq<Step>)
    requires IsRun(c, steps) && Enabled(After(c, steps), StopAll)
    ensures NothingLeft(After(c, steps), Apply(After(c, steps), StopAll))
  {
    InvShutdown(After(c, steps));
  }

  lemma InvShutdown(s: State)
    requires Inv(s) && Enabled(s, StopAll)
    ensures NothingLeft(s, Apply(s, StopAll))
  {
    StepKeepsInv(s, StopAll);
    ShutdownTimers(s);
    assert Apply(s, StopAll).t.entries == map[] && Apply(s, StopAll).t.vipStates == map[];
  }

  lemma ShutdownTimers(s: State)
    requires Inv(s) && Enabled(s, StopAll)
    ensures forall i, v :: 0 <= i < |s.t.timers| && Tracks(s, v, s.t.timers[i].owner) ==>
      i < |Apply(s, StopAll).t.timers| && Apply(s, StopAll).t.timers[i].status != Armed
  {
    forall i, v | 0 <= i < |s.t.timers| && Tracks(s, v, s.t.timers[i].owner)
      ensures i < |Apply(s, StopAll).t.timers| && Apply(s, StopAll).t.timers[i].status != Armed
    {
      ShutdownTimer(s, i, v);
    }
  }

  lemma ShutdownTimer(s: State, i: nat, v: Addr)
    requires Inv(s) && Enabled(s, StopAll) && i < |s.t.timers| && Tracks(s, v, s.t.timers[i].owner)
    ensures i < |Apply(s, StopAll).t.timers| && Apply(s, StopAll).t.timers[i].status != Armed
  {
    TimerFate(s, StopAll, i);
    assert Forgets(s, StopAll, v);
    assert Disarms(s, StopAll, s.t.timers[i].owner);
  }
}
