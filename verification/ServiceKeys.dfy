/** The text keys under which services are allocated addresses. */
module ServiceKeys {

  /** A service, or one pod of it, in a context; `pod` is "" for the whole service. */
  datatype Query = Query(ctx: string, ns: string, svc: string, pod: string)

  function ServiceKey(q: Query): string {
    q.ctx + "/" + q.ns + "/" + q.svc + (if q.pod == "" then "" else "/" + q.pod)
  }

  /** The part of a key before its first slash. */
  function ContextOf(key: string): string {
    if key == "" || key[0] == '/' then "" else [key[0]] + ContextOf(key[1..])
  }

  lemma {:induction false} ContextOfPrefix(ctx: string, rest: string)
    requires '/' !in ctx
    ensures ContextOf(ctx + "/" + rest) == ctx
  {
    var key := ctx + "/" + rest;
    if ctx != "" {
      assert key[1..] == ctx[1..] + "/" + rest;
      ContextOfPrefix(ctx[1..], rest);
    }
  }

  /** The context of a key can be read off it when the context has no slash. */
  lemma ContextOfKey(q: Query)
    requires '/' !in q.ctx
    ensures ContextOf(ServiceKey(q)) == q.ctx
  {
    var rest := q.ns + "/" + q.svc + (if q.pod == "" then "" else "/" + q.pod);
    assert ServiceKey(q) == q.ctx + "/" + rest;
    ContextOfPrefix(q.ctx, rest);
  }

  /** Splitting at the last slash is unambiguous. */
  lemma LastPart(a: string, x: string, b: string, y: string)
    requires '/' !in x && '/' !in y
    ensures a + "/" + x == b + "/" + y <==> a == b && x == y
  {
    var s, t := a + "/" + x, b + "/" + y;
    if s == t {
      assert s[|a|] == '/' && t[|b|] == '/';
      assert forall i :: |a| < i < |s| ==> s[i] == x[i - |a| - 1];
      assert forall i :: |b| < i < |t| ==> t[i] == y[i - |b| - 1];
      assert |a| == |b|;
      assert a == s[..|a|] && b == t[..|b|];
      assert x == s[|a| + 1..] && y == t[|b| + 1..];
    }
  }

  predicate PartsSlashFree(q: Query) {
    '/' !in q.ns && '/' !in q.svc && '/' !in q.pod
  }

  /** `q` without a pod reads the same as `r` with one. */
  predicate Shadows(q: Query, r: Query) {
    q.pod == "" && r.pod != "" && q.svc == r.pod && q.ns == r.svc && q.ctx == r.ctx + "/" + r.ns
  }

  lemma ThreeParts(a: string, b: string, c: string, a': string, b': string, c': string)
    requires '/' !in b && '/' !in c && '/' !in b' && '/' !in c'
    ensures a + "/" + b + "/" + c == a' + "/" + b' + "/" + c' <==> a == a' && b == b' && c == c'
  {
    LastPart(a + "/" + b, c, a' + "/" + b', c');
    LastPart(a, b, a', b');
  }

  /** Whatever the contexts are, two queries share a key exactly when they are the same query, or one
      context is the other followed by a namespace and the remaining parts line up. In particular
      slash-free contexts never share a key. */
  lemma KeysCollideIff(q: Query, r: Query)
    requires PartsSlashFree(q) && PartsSlashFree(r)
    ensures ServiceKey(q) == ServiceKey(r) <==> q == r || Shadows(q, r) || Shadows(r, q)
  {
    if q.pod == "" && r.pod == "" {
      ThreeForm(q);
      ThreeForm(r);
      ThreeParts(q.ctx, q.ns, q.svc, r.ctx, r.ns, r.svc);
    } else if q.pod != "" && r.pod != "" {
      FourForm(q);
      FourForm(r);
      LastPart(q.ctx + "/" + q.ns + "/" + q.svc, q.pod, r.ctx + "/" + r.ns + "/" + r.svc, r.pod);
      ThreeParts(q.ctx, q.ns, q.svc, r.ctx, r.ns, r.svc);
    } else if q.pod == "" {
      ShadowForm(q, r);
    } else {
      ShadowForm(r, q);
    }
  }

  lemma ThreeForm(q: Query)
    requires q.pod == ""
    ensures ServiceKey(q) == q.ctx + "/" + q.ns + "/" + q.svc
  {
  }

  lemma FourForm(q: Query)
    requires q.pod != ""
    ensures ServiceKey(q) == (q.ctx + "/" + q.ns + "/" + q.svc) + "/" + q.pod
  {
  }

  lemma ShadowForm(q: Query, r: Query)
    requires PartsSlashFree(q) && PartsSlashFree(r) && q.pod == "" && r.pod != ""
    ensures ServiceKey(q) == ServiceKey(r) <==> Shadows(q, r)
  {
    ThreeForm(q);
    FourForm(r);
    ThreeParts(q.ctx, q.ns, q.svc, r.ctx + "/" + r.ns, r.svc, r.pod);
  }

  /** Two different slash-free contexts never share a key, whatever the other parts are. */
  lemma SlashFreeContextsApart(q: Query, r: Query)
    requires '/' !in q.ctx && '/' !in r.ctx && q.ctx != r.ctx
    ensures ServiceKey(q) != ServiceKey(r)
  {
    ContextOfKey(q);
    ContextOfKey(r);
  }

  /** With the other parts fixed, different contexts never share a key, slashes or not. */
  lemma SamePartsApart(ctx: string, other: string, q: Query)
    ensures ServiceKey(q.(ctx := ctx)) == ServiceKey(q.(ctx := other)) <==> ctx == other
  {
    var rest := "/" + q.ns + "/" + q.svc + (if q.pod == "" then "" else "/" + q.pod);
    assert ServiceKey(q.(ctx := ctx)) == ctx + rest;
    assert ServiceKey(q.(ctx := other)) == other + rest;
    assert (ctx + rest)[..|ctx + rest| - |rest|] == ctx;
    assert (other + rest)[..|other + rest| - |rest|] == other;
  }
}
