/** Kubeconfig values, how two are merged, and which contexts a change affects. Cluster and user
    records are opaque; a context is its two references and an opaque rest. */
module KubeConfig {
  import opened Wrappers

  datatype Context = Context(cluster: string, user: string, rest: string)

  datatype Config = Config(
    clusters: map<string, string>,
    contexts: map<string, Context>,
    users: map<string, string>,
    current: string)

  const EMPTY := Config(map[], map[], map[], "")

  /** Everything of `b`, and of `a` what `b` does not name. */
  function Override(a: Config, b: Config): Config {
    Config(a.clusters + b.clusters, a.contexts + b.contexts, a.users + b.users,
           if b.current != "" then b.current else a.current)
  }

  /** Everything of `a`, and of `b` what `a` does not name. */
  function Fill(a: Config, b: Config): Config {
    Config(b.clusters + a.clusters, b.contexts + a.contexts, b.users + a.users,
           if a.current == "" then b.current else a.current)
  }

  /** Override is associative and idempotent with the empty configuration as unit, current context
      included. */
  lemma OverrideLaws(a: Config, b: Config, c: Config)
    ensures Override(Override(a, b), c) == Override(a, Override(b, c))
    ensures Override(a, a) == a && Override(a, Override(a, b)) == Override(a, b) && Override(Override(a, b), b) == Override(a, b)
    ensures Override(EMPTY, a) == a && Override(a, EMPTY) == a
  {
    MapLaws(a.clusters, b.clusters, c.clusters);
    MapLaws(a.contexts, b.contexts, c.contexts);
    MapLaws(a.users, b.users, c.users);
  }

  lemma MapLaws<V>(a: map<string, V>, b: map<string, V>, c: map<string, V>)
    ensures (a + b) + c == a + (b + c)
    ensures a + a == a && a + (a + b) == a + b && (a + b) + b == a + b && map[] + a == a && a + map[] == a
  {
  }

  /** On disjoint names filling and overriding agree, up to the current context. */
  predicate Disjoint(a: Config, b: Config) {
    a.clusters.Keys !! b.clusters.Keys && a.contexts.Keys !! b.contexts.Keys && a.users.Keys !! b.users.Keys
  }

  lemma FillIsOverride(a: Config, b: Config)
    requires Disjoint(a, b)
    ensures Fill(a, b) == Override(a, b).(current := Fill(a, b).current)
  {
    assert b.clusters + a.clusters == a.clusters + b.clusters;
    assert b.contexts + a.contexts == a.contexts + b.contexts;
    assert b.users + a.users == a.users + b.users;
  }

  /** The file's configuration with the dynamic one, if any, on top. */
  function Merged(file: Config, dynamic: Option<Config>): Config {
    if dynamic.None? then file else Override(file, dynamic.value)
  }

  // ---------------------------------------------------------------- affected contexts

  function Find<V>(m: map<string, V>, k: string): Option<V> {
    if k in m then Some(m[k]) else None
  }

  /** What a context stands for: itself, its cluster and its user, either of which may be missing. */
  datatype Effective = Effective(context: Context, cluster: Option<string>, user: Option<string>)

  function EffectiveOf(cfg: Config, name: string): Option<Effective> {
    if name !in cfg.contexts then None
    else
      var c := cfg.contexts[name];
      Some(Effective(c, Find(cfg.clusters, c.cluster), Find(cfg.users, c.user)))
  }

  /** The contexts of `before` that stand for something else, or nothing, in `after`. */
  function Affected(before: Config, after: Config): set<string> {
    set name | name in before.contexts && EffectiveOf(after, name) != EffectiveOf(before, name)
  }

  /** The same for configurations that may have failed to load. */
  function AffectedOpt(before: Option<Config>, after: Option<Config>): set<string> {
    if before.None? then {}
    else if after.None? then before.value.contexts.Keys
    else Affected(before.value, after.value)
  }

  function Elements(names: seq<string>): set<string> {
    set n | n in names
  }

  /** What a name stands for in two maps differs: it is missing from one, or has two values. */
  predicate DiffersAt<V(==)>(m: map<string, V>, n: map<string, V>, k: string) {
    (k in m) != (k in n) || (k in m && k in n && m[k] != n[k])
  }

  /** The context is missing from the new configuration, or its entry, or its cluster, or its user is
      not what it was. */
  predicate Differs(before: Config, after: Config, name: string)
    requires name in before.contexts
  {
    || DiffersAt(before.contexts, after.contexts, name)
    || DiffersAt(before.clusters, after.clusters, before.contexts[name].cluster)
    || DiffersAt(before.users, after.users, before.contexts[name].user)
  }

  /** The affected contexts are the old ones that differ. */
  lemma ListedIff(before: Option<Config>, after: Option<Config>)
    ensures forall name :: name in AffectedOpt(before, after) <==>
      before.Some? && name in before.value.contexts && (after.None? || Differs(before.value, after.value, name))
  {
  }

  /** The comparison loop, in whatever order the map yields its names. */
  method AffectedContexts(before: Option<Config>, after: Option<Config>) returns (affected: seq<string>)
    ensures Distinct(affected) && Elements(affected) == AffectedOpt(before, after)
    ensures forall name :: name in affected <==>
      before.Some? && name in before.value.contexts && (after.None? || Differs(before.value, after.value, name))
  {
    affected := [];
    ListedIff(before, after);
    if before.None? {
      return;
    }
    var prior := before.value;
    var todo := prior.contexts.Keys;
    while todo != {}
      invariant todo <= prior.contexts.Keys && Distinct(affected)
      invariant forall n :: n in affected <==> n in AffectedOpt(before, after) && n !in todo
      decreases todo
    {
      var name :| name in todo;
      todo := todo - {name};
      var oldCtx := prior.contexts[name];
      if after.None? {
        affected := affected + [name];
        continue;
      }
      if name !in after.value.contexts {
        affected := affected + [name];
        continue;
      }
      var newCtx := after.value.contexts[name];
      if oldCtx != newCtx {
        affected := affected + [name];
        continue;
      }
      if Find(prior.clusters, oldCtx.cluster) != Find(after.value.clusters, newCtx.cluster) {
        affected := affected + [name];
        continue;
      }
      if Find(prior.users, oldCtx.user) != Find(after.value.users, newCtx.user) {
        affected := affected + [name];
      }
    }
  }

  // ---------------------------------------------------------------- what the requests mean

  /** PATCH means override: the merged configuration afterwards is the merged configuration before,
      overridden by the patch, whether or not there was a dynamic configuration. */
  lemma PatchMeansOverride(file: Config, dynamic: Option<Config>, patch: Config)
    ensures var base := if dynamic.None? then EMPTY else dynamic.value;
      Merged(file, Some(Override(base, patch))) == Override(Merged(file, dynamic), patch)
  {
    var base := if dynamic.None? then EMPTY else dynamic.value;
    OverrideLaws(file, base, patch);
    OverrideLaws(patch, base, patch);
  }

  /** `m` is `base` with what `top` names taken from `top`. */
  ghost predicate Overlays<V>(m: map<string, V>, base: map<string, V>, top: map<string, V>) {
    && (forall k :: k in m <==> k in base || k in top)
    && (forall k :: k in m ==> m[k] == if k in top then top[k] else base[k])
  }

  /** Name by name: the merged configuration is the file with the dynamic configuration's names taken
      from there; after a PATCH every name of the patch has the patch's value and every other name keeps
      its own; after a POST without conflict likewise, but the dynamic configuration's current context
      stays if it has one. */
  lemma NameByName(file: Config, dynamic: Option<Config>, body: Config)
    ensures dynamic.Some? ==>
      var m, d := Merged(file, dynamic), dynamic.value;
      && Overlays(m.clusters, file.clusters, d.clusters) && Overlays(m.contexts, file.contexts, d.contexts)
      && Overlays(m.users, file.users, d.users) && m.current == if d.current != "" then d.current else file.current
    ensures dynamic.None? ==> Merged(file, dynamic) == file
    ensures var m := Merged(file, dynamic); var m' := Override(m, body);
      && Overlays(m'.clusters, m.clusters, body.clusters) && Overlays(m'.contexts, m.contexts, body.contexts)
      && Overlays(m'.users, m.users, body.users) && m'.current == if body.current != "" then body.current else m.current
    ensures NoConflict(dynamic, body) ==>
      var m := Merged(file, dynamic); var m' := Merged(file, Some(Added(dynamic, body)));
      && Overlays(m'.clusters, m.clusters, body.clusters) && Overlays(m'.contexts, m.contexts, body.contexts)
      && Overlays(m'.users, m.users, body.users)
      && m'.current == if (dynamic.None? || dynamic.value.current == "") && body.current != "" then body.current else m.current
  {
    if NoConflict(dynamic, body) {
      AddMergesAsOverride(file, dynamic, body);
    }
  }

  /** Would this addition leave the context standing for what it stands for? It may not redefine the
      context, nor redefine or newly define the cluster or the user it refers to. */
  predicate SparesContext(merged: Config, added: Config, name: string)
    requires name in merged.contexts
  {
    var c := merged.contexts[name];
    && (name in added.contexts ==> added.contexts[name] == c)
    && (c.cluster in added.clusters ==> Find(merged.clusters, c.cluster) == Some(added.clusters[c.cluster]))
    && (c.user in added.users ==> Find(merged.users, c.user) == Some(added.users[c.user]))
  }

  predicate AdditionHarmless(merged: Config, added: Config) {
    forall name :: name in merged.contexts ==> SparesContext(merged, added, name)
  }

  lemma OverrideKeepsContext(merged: Config, added: Config, name: string)
    requires name in merged.contexts
    ensures EffectiveOf(Override(merged, added), name) == EffectiveOf(merged, name) <==> SparesContext(merged, added, name)
  {
  }

  /** Overriding affects no context if and only if the addition is harmless. */
  lemma NoneAffectedIff(merged: Config, added: Config)
    ensures Affected(merged, Override(merged, added)) == {} <==> AdditionHarmless(merged, added)
  {
    forall name | name in merged.contexts
      ensures name in Affected(merged, Override(merged, added)) <==> EffectiveOf(Override(merged, added), name) != EffectiveOf(merged, name)
    {
      OverrideKeepsContext(merged, added, name);
    }
    if AdditionHarmless(merged, added) {
      forall name | name in Affected(merged, Override(merged, added)) ensures false {
        OverrideKeepsContext(merged, added, name);
      }
    } else {
      var name :| name in merged.contexts && EffectiveOf(Override(merged, added), name) != EffectiveOf(merged, name);
      assert name in Affected(merged, Override(merged, added));
    }
  }

  /** The dynamic configuration after a POST that met no conflict in it. */
  function Added(dynamic: Option<Config>, added: Config): Config {
    if dynamic.None? then added else Fill(dynamic.value, added)
  }

  predicate NoConflict(dynamic: Option<Config>, added: Config) {
    dynamic.Some? ==> Disjoint(dynamic.value, added)
  }

  /** A POST that passes the conflict check merges as an override of the merged configuration, except
      for the current context. */
  lemma AddMergesAsOverride(file: Config, dynamic: Option<Config>, added: Config)
    requires NoConflict(dynamic, added)
    ensures var after := Merged(file, Some(Added(dynamic, added)));
      after == Override(Merged(file, dynamic), added).(current := after.current)
  {
    if dynamic.Some? {
      FillIsOverride(dynamic.value, added);
      OverrideLaws(file, dynamic.value, added);
    }
  }

  /** POST affects no tunnel if and only if the addition is harmless to the merged configuration. */
  lemma PostAffectsNoneIff(file: Config, dynamic: Option<Config>, added: Config)
    requires NoConflict(dynamic, added)
    ensures var before := Merged(file, dynamic);
      Affected(before, Merged(file, Some(Added(dynamic, added)))) == {} <==> AdditionHarmless(before, added)
  {
    var before := Merged(file, dynamic);
    var after := Merged(file, Some(Added(dynamic, added)));
    AddMergesAsOverride(file, dynamic, added);
    var plain := Override(before, added);
    assert forall name :: EffectiveOf(after, name) == EffectiveOf(plain, name);
    assert Affected(before, after) == Affected(before, plain);
    NoneAffectedIff(before, added);
  }

  /** Every reference of every context resolves. */
  predicate Resolves(cfg: Config) {
    forall name :: name in cfg.contexts ==>
      cfg.contexts[name].cluster in cfg.clusters && cfg.contexts[name].user in cfg.users
  }

  /** The usual case: new names only, and no dangling reference that they could fill. */
  lemma FreshPostAffectsNone(file: Config, dynamic: Option<Config>, added: Config)
    requires NoConflict(dynamic, added)
    requires Disjoint(Merged(file, dynamic), added) && Resolves(Merged(file, dynamic))
    ensures Affected(Merged(file, dynamic), Merged(file, Some(Added(dynamic, added)))) == {}
  {
    PostAffectsNoneIff(file, dynamic, added);
  }

  const REDEFINED := Config(map["c" := "new"], map[], map[], "")

  /** New names alone are not enough to ask of the dynamic configuration: the conflict check does not
      see the file, so a POST can redefine a cluster of the file. */
  lemma PostCanRedefineFile() returns (file: Config)
    ensures NoConflict(None, REDEFINED) && Resolves(file)
    ensures Affected(file, Merged(file, Some(Added(None, REDEFINED)))) == {"x"}
  {
    file := Config(map["c" := "old"], map["x" := Context("c", "u", "")], map["u" := "me"], "");
    var after := Merged(file, Some(Added(None, REDEFINED)));
    assert EffectiveOf(after, "x") == Some(Effective(Context("c", "u", ""), Some("new"), Some("me")));
    assert EffectiveOf(file, "x") == Some(Effective(Context("c", "u", ""), Some("old"), Some("me")));
  }

  /** Nor are disjoint names enough: a new cluster can fill a dangling reference. */
  lemma PostCanFillDangling() returns (file: Config)
    ensures NoConflict(None, REDEFINED) && Disjoint(file, REDEFINED)
    ensures Affected(file, Merged(file, Some(Added(None, REDEFINED)))) == {"x"}
  {
    file := Config(map[], map["x" := Context("c", "u", "")], map["u" := "me"], "");
    var after := Merged(file, Some(Added(None, REDEFINED)));
    assert EffectiveOf(after, "x") == Some(Effective(Context("c", "u", ""), Some("new"), Some("me")));
    assert EffectiveOf(file, "x") == Some(Effective(Context("c", "u", ""), None, Some("me")));
  }
}
