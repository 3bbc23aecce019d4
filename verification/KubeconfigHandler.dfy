/** The configuration endpoint: change the dynamic configuration, then stop what the change affects. */
module KubeconfigHandler {
  import opened Wrappers
  import opened KubeConfig
  import opened Resolution
  import opened Reload
  import A = Allocator
  import C = ClientManager
  import F = ForwardManager
  import FS = ForwardState

  /** `Other` is any method the endpoint does not allow; reading the configuration is not modelled. */
  datatype Verb = Put | Post | Patch | Delete | Other

  datatype Status = NoContent | BadRequest | NameConflict | MethodNotAllowed | NotImplemented

  function MergedOpt(file: Option<Config>, dynamic: Option<Config>): Option<Config> {
    if file.None? then None else Some(Merged(file.value, dynamic))
  }

  /** The dynamic configuration a request leaves behind; `body` is None when it does not parse. */
  function NextDynamic(verb: Verb, dynamic: Option<Config>, body: Option<Config>): Option<Config> {
    if verb.Delete? then None
    else if verb.Other? || body.None? then dynamic
    else if verb.Put? then body
    else if verb.Patch? then Some(Override(if dynamic.None? then EMPTY else dynamic.value, body.value))
    else if NoConflict(dynamic, body.value) then Some(Added(dynamic, body.value)) else dynamic
  }

  /** `loads` says whether the file loads when the clients are rebuilt. */
  function StatusFor(verb: Verb, dynamic: Option<Config>, body: Option<Config>, loads: bool): Status {
    if verb.Other? then MethodNotAllowed
    else if verb.Delete? then NoContent
    else if body.None? then BadRequest
    else if verb.Post? && !NoConflict(dynamic, body.value) then NameConflict
    else if loads then NoContent else BadRequest
  }

  /** A name is in both configurations. */
  predicate SharesName(a: Config, b: Config) {
    || (exists k :: k in a.clusters && k in b.clusters)
    || (exists k :: k in a.contexts && k in b.contexts)
    || (exists k :: k in a.users && k in b.users)
  }

  lemma SharesNameIff(a: Config, b: Config)
    ensures SharesName(a, b) <==> !Disjoint(a, b)
  {
  }

  /** A request is refused for a conflict exactly when it is a POST that names something the dynamic
      configuration names, and then, or when it does not parse, changes nothing. A file that does not
      load makes it a bad request although the change has been made; DELETE succeeds regardless. */
  lemma RequestMeans(verb: Verb, dynamic: Option<Config>, body: Option<Config>, loads: bool)
    ensures var status, next := StatusFor(verb, dynamic, body, loads), NextDynamic(verb, dynamic, body);
      && (status == NameConflict <==> verb == Post && body.Some? && dynamic.Some? && SharesName(dynamic.value, body.value))
      && (status == MethodNotAllowed <==> verb == Other)
      && (status == BadRequest <==> verb != Other && verb != Delete && status != NameConflict && (body.None? || !loads))
      && status != NotImplemented
      && (status == NameConflict || status == MethodNotAllowed || (body.None? && verb != Delete) ==> next == dynamic)
      && (verb == Delete ==> next == None)
      && (verb == Put && body.Some? ==> next == body)
      && (verb == Patch && body.Some? ==> next.Some? && (dynamic.None? ==> next == body) && (dynamic.Some? ==> next.value == Override(dynamic.value, body.value)))
      && (verb == Post && body.Some? && status != NameConflict ==> next.Some? && (dynamic.None? ==> next == body))
  {
    if body.Some? {
      OverrideLaws(body.value, body.value, body.value);
      if dynamic.Some? {
        SharesNameIff(dynamic.value, body.value);
      }
    }
  }

  /** The tunnels of exactly these contexts were stopped, one context after the other. */
  ghost predicate Stopped(w: Tunnels, w': Tunnels, gone: set<string>)
    requires WellFormed(w)
  {
    exists names :: Elements(names) == gone && w' == StopEach(w, names)
  }

  lemma StoppedExactly(w: Tunnels, w': Tunnels, gone: set<string>)
    requires Sound(w) && Stopped(w, w', gone)
    ensures Sound(w') && ExactlyWithout(w, w', gone)
  {
    var names :| Elements(names) == gone && w' == StopEach(w, names);
    StopEachExact(w, names);
  }

  lemma StoppedNone(w: Tunnels, w': Tunnels)
    requires WellFormed(w) && Stopped(w, w', {})
    ensures w' == w
  {
    var names :| Elements(names) == {} && w' == StopEach(w, names);
    assert forall i :: 0 <= i < |names| ==> names[i] in Elements(names);
  }

  lemma ReleaseAllSnoc(a: A.Alloc, vips: set<Addr>, ip: Addr)
    ensures A.Release(ReleaseAll(a, vips), ip) == ReleaseAll(a, vips + {ip})
  {
    var b, c := ReleaseAll(a, vips), ReleaseAll(a, vips + {ip});
    assert b.byAddr - {ip} == c.byAddr;
    if ip in b.byAddr {
      assert b.byKey - {a.byAddr[ip]} == c.byKey;
      assert b.released + {ip} == c.released;
    } else {
      assert b.byAddr == c.byAddr && b.byKey == c.byKey && b.released == c.released;
    }
  }

  class Handler {
    var clientManager: C.Manager?
    var forwardManager: F.Manager?
    const allocator: A.VipAllocator

    constructor (allocator: A.VipAllocator)
      ensures this.allocator == allocator && clientManager == null && forwardManager == null
    {
      this.allocator := allocator;
      clientManager, forwardManager := null, null;
    }

    method SetManagers(cm: C.Manager?, fm: F.Manager?)
      modifies this
      ensures clientManager == cm && forwardManager == fm
    {
      clientManager, forwardManager := cm, fm;
    }

    ghost predicate Valid()
      reads this, forwardManager, allocator
    {
      allocator.Valid() && (forwardManager != null ==> forwardManager.Valid())
    }

    /** The tunnels; none when there is no forward manager. */
    ghost function View(): (w: Tunnels)
      requires Valid()
      reads this, forwardManager, allocator
      ensures WellFormed(w)
    {
      if forwardManager == null
      then Tunnels(Proxy(allocator.Model(), FS.Empty(FS.Settings(0, false))), P.Pool(map[], []))
      else Tunnels(Proxy(allocator.Model(), forwardManager.View()), forwardManager.PoolView())
    }

    method ReleaseVips(vips: set<Addr>)
      requires allocator.Valid()
      modifies allocator
      ensures allocator.Valid() && allocator.Model() == ReleaseAll(old(allocator.Model()), vips)
    {
      ghost var before := allocator.Model();
      var todo := vips;
      assert vips - todo == {};
      while todo != {}
        invariant allocator.Valid() && todo <= vips
        invariant allocator.Model() == ReleaseAll(before, vips - todo)
        decreases todo
      {
        var ip :| ip in todo;
        ReleaseAllSnoc(before, vips - todo, ip);
        assert vips - (todo - {ip}) == vips - todo + {ip};
        todo := todo - {ip};
        var tracked := allocator.ReleaseVip(ip);
      }
      assert vips - todo == vips;
    }

    method StopContext(fm: F.Manager, name: string)
      requires Valid() && fm == forwardManager
      modifies fm, allocator
      ensures Valid() && View() == StopOne(old(View()), name)
    {
      var vips := fm.ShutdownContext(name);
      if fm.settings.hasReleaser {
        ReleaseVips(vips);
      }
    }

    method ShutdownTunnels(names: seq<string>)
      requires Valid()
      modifies forwardManager, allocator
      ensures Valid()
      ensures forwardManager != null ==> View() == StopEach(old(View()), names)
      ensures forwardManager == null ==> View() == old(View())
    {
      if |names| == 0 {
        return;
      }
      var fm := forwardManager;
      if fm == null {
        return;
      }
      ghost var before := View();
      for i := 0 to |names|
        invariant Valid() && StopEach(View(), names[i..]) == StopEach(before, names)
      {
        assert names[i..][0] == names[i] && names[i..][1..] == names[i + 1..];
        StopContext(fm, names[i]);
      }
    }

    /** Stops what the change from one merged configuration to another affects. */
    method StopAffected(before: Option<Config>, after: Option<Config>)
      requires Valid()
      modifies forwardManager, allocator
      ensures Valid()
      ensures forwardManager != null ==> Stopped(old(View()), View(), AffectedOpt(before, after))
      ensures forwardManager == null ==> View() == old(View())
    {
      var names := AffectedContexts(before, after);
      ShutdownTunnels(names);
    }

    ghost function BodyOf(body: C.ConfigObject?): Option<Config>
      reads body
    {
      if body == null then None else Some(body.Value())
    }

    /** Applies a request to the client manager; `file` is what loading the file yields meanwhile. */
    method Change(cm: C.Manager, verb: Verb, body: C.ConfigObject?, file: Option<Config>) returns (status: Status)
      requires verb != Other && (verb == Delete || body != null)
      modifies cm, cm.dynamic
      ensures cm.Dynamic() == NextDynamic(verb, old(cm.Dynamic()), old(BodyOf(body)))
      ensures status == StatusFor(verb, old(cm.Dynamic()), old(BodyOf(body)), file.Some?)
    {
      if verb == Delete {
        var ignored := cm.Reset(null, file);
        return NoContent;
      }
      var o: C.Outcome;
      if verb == Put {
        o := cm.Reset(body, file);
      } else if verb == Post {
        o := cm.Add(body, file);
      } else {
        o := cm.MergeAndOverwrite(body, file);
      }
      status := match o case Ok => NoContent case Conflict => NameConflict case LoadError => BadRequest;
    }

    /** Stops what a request affected, given the merged configuration before it. */
    method Settle(cm: C.Manager, before: Option<Config>, file: Option<Config>)
      requires Valid()
      modifies forwardManager, allocator
      ensures Valid()
      ensures forwardManager != null ==> Stopped(old(View()), View(), AffectedOpt(before, MergedOpt(file, cm.Dynamic())))
      ensures forwardManager == null ==> View() == old(View())
    {
      var after := cm.MergedConfig(file);
      StopAffected(before, after);
    }

    /** A request with a usable body: the merged configuration is read before and after the change. */
    method Perform(cm: C.Manager, verb: Verb, body: C.ConfigObject?, f0: Option<Config>, f1: Option<Config>, f2: Option<Config>) returns (status: Status)
      requires Valid() && verb != Other && (verb == Delete || body != null)
      modifies cm, cm.dynamic, forwardManager, allocator
      ensures Valid()
      ensures cm.Dynamic() == NextDynamic(verb, old(cm.Dynamic()), old(BodyOf(body)))
      ensures status == StatusFor(verb, old(cm.Dynamic()), old(BodyOf(body)), f1.Some?)
      ensures var before, after := MergedOpt(f0, old(cm.Dynamic())), MergedOpt(f2, cm.Dynamic());
        if status == NoContent && forwardManager != null
        then Stopped(old(View()), View(), AffectedOpt(before, after)) else View() == old(View())
    {
      var before := cm.MergedConfig(f0);
      status := Change(cm, verb, body, f1);
      assert View() == old(View());
      if status == NoContent {
        Settle(cm, before, f2);
      }
    }

    /** A whole request. A null `body` is one that cannot be read or parsed; the three files are what
        loading the file-based configuration yields before, during and after the change. */
    method Handle(verb: Verb, body: C.ConfigObject?, f0: Option<Config>, f1: Option<Config>, f2: Option<Config>) returns (status: Status)
      requires Valid()
      modifies clientManager, (if clientManager == null then null else clientManager.dynamic), forwardManager, allocator
      ensures Valid()
      ensures clientManager == null ==> status == NotImplemented && View() == old(View())
      ensures clientManager != null ==>
        && var was, asked := old(clientManager.Dynamic()), old(BodyOf(body));
        && clientManager.Dynamic() == NextDynamic(verb, was, asked)
        && status == StatusFor(verb, was, asked, f1.Some?)
        && if status == NoContent && forwardManager != null
           then Stopped(old(View()), View(), AffectedOpt(MergedOpt(f0, was), MergedOpt(f2, clientManager.Dynamic())))
           else View() == old(View())
    {
      var cm := clientManager;
      if cm == null {
        return NotImplemented;
      }
      if verb == Other {
        return MethodNotAllowed;
      }
      if verb != Delete && body == null {
        return BadRequest;
      }
      status := Perform(cm, verb, body, f0, f1, f2);
    }
  }
}
