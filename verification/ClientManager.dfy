/** The client manager object: the dynamic configuration and the operations that change it. */
module ClientManager {
  import opened Wrappers
  import opened KubeConfig

  /** A kubeconfig as the object that the merge writes into. */
  class ConfigObject {
    var clusters: map<string, string>
    var contexts: map<string, Context>
    var users: map<string, string>
    var current: string

    ghost function Value(): Config
      reads this
    {
      Config(clusters, contexts, users, current)
    }

    constructor (value: Config)
      ensures Value() == value
    {
      clusters, contexts, users, current := value.clusters, value.contexts, value.users, value.current;
    }
  }

  /** One of the three copy loops: entries of `src` go into `dst`, in whatever order the map yields
      them, replacing what is there only when `overwrite` says so. */
  method CopyInto<V>(dst: map<string, V>, src: map<string, V>, overwrite: bool) returns (r: map<string, V>)
    ensures r == if overwrite then dst + src else src + dst
  {
    r := dst;
    var todo := src.Keys;
    while todo != {}
      invariant todo <= src.Keys && r.Keys == dst.Keys + (src.Keys - todo)
      invariant forall k :: k in r ==>
        r[k] == if k in src && k !in todo && (overwrite || k !in dst) then src[k] else dst[k]
      decreases todo
    {
      var name :| name in todo;
      todo := todo - {name};
      if name !in r || overwrite {
        r := r[name := src[name]];
      }
    }
  }

  /** Merges `src` into `dst` in place; the two may be the same object. */
  method MergeConfigs(dst: ConfigObject, src: ConfigObject, overwrite: bool)
    modifies dst
    ensures dst.Value() == if overwrite then Override(old(dst.Value()), old(src.Value())) else Fill(old(dst.Value()), old(src.Value()))
  {
    dst.clusters := CopyInto(dst.clusters, src.clusters, overwrite);
    dst.contexts := CopyInto(dst.contexts, src.contexts, overwrite);
    dst.users := CopyInto(dst.users, src.users, overwrite);
    if src.current != "" && (overwrite || dst.current == "") {
      dst.current := src.current;
    }
  }

  /** Results of an operation: done, refused for name conflicts, or done but the file failed to load. */
  datatype Outcome = Ok | Conflict | LoadError

  /** `file` arguments stand for what loading the file-based configuration yields at that moment. */
  class Manager {
    var dynamic: ConfigObject?
    var clientNames: set<string>
    var currentCtx: string

    ghost function Dynamic(): Option<Config>
      reads this, dynamic
    {
      if dynamic == null then None else Some(dynamic.Value())
    }

    constructor ()
      ensures dynamic == null
    {
      dynamic, clientNames, currentCtx := null, {}, "";
    }

    method MergedConfig(file: Option<Config>) returns (r: Option<Config>)
      ensures r == if file.None? then None else Some(Merged(file.value, Dynamic()))
    {
      if file.None? {
        return None;
      }
      var raw := new ConfigObject(file.value);
      if dynamic != null {
        MergeConfigs(raw, dynamic, true);
      }
      r := Some(Config(raw.clusters, raw.contexts, raw.users, raw.current));
    }

    /** Rebuilds the clients; when the file does not load the clients stay as they were. */
    method Rebuild(file: Option<Config>) returns (o: Outcome)
      modifies this`clientNames, this`currentCtx
      ensures o == if file.None? then LoadError else Ok
      ensures file.Some? ==> clientNames == Merged(file.value, Dynamic()).contexts.Keys
                             && currentCtx == Merged(file.value, Dynamic()).current
      ensures file.None? ==> clientNames == old(clientNames) && currentCtx == old(currentCtx)
    {
      var merged := MergedConfig(file);
      if merged.None? {
        return LoadError;
      }
      clientNames := merged.value.contexts.Keys;
      currentCtx := merged.value.current;
      return Ok;
    }

    method Reset(cfg: ConfigObject?, file: Option<Config>) returns (o: Outcome)
      modifies this
      ensures dynamic == cfg && o == if file.None? then LoadError else Ok
      ensures file.Some? ==> clientNames == Merged(file.value, Dynamic()).contexts.Keys
    {
      dynamic := cfg;
      o := Rebuild(file);
    }

    method Add(cfg: ConfigObject, file: Option<Config>) returns (o: Outcome)
      modifies this, dynamic
      ensures if NoConflict(old(Dynamic()), old(cfg.Value()))
              then Dynamic() == Some(Added(old(Dynamic()), old(cfg.Value()))) && o == if file.None? then LoadError else Ok
              else Dynamic() == old(Dynamic()) && o == Conflict
      ensures o == Ok ==> clientNames == Merged(file.value, Dynamic()).contexts.Keys
    {
      if dynamic != null {
        if dynamic.clusters.Keys !! cfg.clusters.Keys && dynamic.contexts.Keys !! cfg.contexts.Keys
           && dynamic.users.Keys !! cfg.users.Keys {
          MergeConfigs(dynamic, cfg, false);
        } else {
          return Conflict;
        }
      } else {
        dynamic := cfg;
      }
      o := Rebuild(file);
    }

    method MergeAndOverwrite(cfg: ConfigObject, file: Option<Config>) returns (o: Outcome)
      modifies this, dynamic
      ensures var base := if old(Dynamic()).None? then EMPTY else old(Dynamic()).value;
        Dynamic() == Some(Override(base, old(cfg.Value())))
      ensures o == if file.None? then LoadError else Ok
      ensures file.Some? ==> Merged(file.value, Dynamic()) == Override(Merged(file.value, old(Dynamic())), old(cfg.Value()))
                             && clientNames == Merged(file.value, Dynamic()).contexts.Keys
    {
      ghost var before, patch := Dynamic(), cfg.Value();
      if dynamic == null {
        dynamic := new ConfigObject(EMPTY);
      }
      MergeConfigs(dynamic, cfg, true);
      if file.Some? {
        PatchMeansOverride(file.value, before, patch);
      }
      o := Rebuild(file);
    }
  }
}
