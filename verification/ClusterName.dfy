/** Cluster host names: the recogniser used by the SOCKS5 proxy, the parser shared
    with the DNS server, and the printer of context-suffixed names. */
module ClusterName {
  import opened Wrappers
  import opened Strings

  /** A parsed name; `pod` and `ctx` are "" when the name does not carry them. */
  datatype Host = Host(pod: string, svc: string, ns: string, ctx: string)

  function IsClusterHost(host: string, domain: string): bool {
    var suffix := "." + domain;
    if HasSuffix(host, suffix) || HasSuffix(host, suffix + ".") then true
    else
      var idx := Index(host, suffix + ".");
      idx >= 0 &&
      var rest := host[idx + |suffix| + 1..];
      rest != "" && '.' !in rest
  }

  function FromLabels(parts: seq<string>, ctx: string): Option<Host> {
    if |parts| == 2 then Some(Host("", parts[0], parts[1], ctx))
    else if |parts| == 3 then Some(Host(parts[0], parts[1], parts[2], ctx))
    else None
  }

  function ParseClusterHost(host: string, domain: string): (r: Option<Host>)
    ensures r.Some? ==> |r.value.ctx| < |host|
  {
    var suffix := "." + domain;
    if HasSuffix(host, suffix) then
      FromLabels(Split(host[..|host| - |suffix|]), "")
    else
      var idx := LastIndex(host, suffix + ".");
      if idx < 0 then None
      else
        var after := host[idx + |suffix| + 1..];
        if after == "" || '.' in after then None
        else FromLabels(Split(host[..idx]), after)
  }

  /** The query name without its trailing dot and without an existing context suffix. */
  function Stem(qname: string, domain: string): string {
    var base := TrimSuffix(qname, ".");
    var parsed := ParseClusterHost(base, domain);
    if parsed.Some? && parsed.value.ctx != ""
    then base[..|base| - |parsed.value.ctx| - 1]
    else base
  }

  function ContextFQDN(qname: string, ctx: string, domain: string): string {
    Stem(qname, domain) + "." + ctx + "."
  }

  /** The name a parsed host stands for: the inverse of the parser. */
  function Print(h: Host, domain: string): string {
    (if h.pod == "" then "" else h.pod + ".") + h.svc + "." + h.ns + "." + domain
    + (if h.ctx == "" then "" else "." + h.ctx)
  }

  predicate DotFree(h: Host) {
    '.' !in h.pod && '.' !in h.svc && '.' !in h.ns && '.' !in h.ctx
  }

  /** Every label of the domain is `ctx`: the one shape in which a context suffix
      cannot be told from the domain itself. */
  predicate AllLabelsAre(domain: string, ctx: string) {
    var d := Split(domain);
    forall i :: 0 <= i < |d| ==> d[i] == ctx
  }

  /** The labels of the domain repeat with period two (vacuously so below three labels). */
  predicate PeriodTwo(domain: string) {
    var d := Split(domain);
    forall i :: 0 <= i < |d| - 2 ==> d[i + 2] == d[i]
  }

  // ---------------------------------------------------------------- the two accepted forms

  lemma ParseBare(x: string, domain: string)
    ensures ParseClusterHost(x + "." + domain, domain) == FromLabels(Split(x), "")
  {
    var host := x + "." + domain;
    assert host == x + ("." + domain);
    assert host[..|host| - |domain| - 1] == x;
  }

  lemma OccurrenceEndsInDot(host: string, domain: string, i: nat)
    requires OccursAt(host, "." + domain + ".", i)
    ensures host[i] == '.' && host[i + |domain| + 1] == '.'
  {
    var pat := "." + domain + ".";
    assert host[i..i + |pat|] == pat;
    assert host[i] == pat[0] && host[i + |pat| - 1] == pat[|pat| - 1];
  }

  /** In `x.domain.ctx` the last occurrence of the dotted domain is the one before `ctx`. */
  lemma LastOccurrence(x: string, domain: string, ctx: string)
    requires '.' !in ctx
    ensures LastIndex(x + "." + domain + "." + ctx, "." + domain + ".") == |x|
  {
    var host, pat := x + "." + domain + "." + ctx, "." + domain + ".";
    assert host == x + pat + ctx;
    assert OccursAt(host, pat, |x|);
    OccurrenceEndsInDot(host, domain, LastIndex(host, pat));
    assert forall p :: |x| + |pat| <= p < |host| ==> host[p] == ctx[p - |x| - |pat|];
  }

  lemma ParseContext(x: string, domain: string, ctx: string)
    requires ctx != "" && '.' !in ctx
    requires !HasSuffix(x + "." + domain + "." + ctx, "." + domain)
    ensures ParseClusterHost(x + "." + domain + "." + ctx, domain) == FromLabels(Split(x), ctx)
  {
    LastOccurrence(x, domain, ctx);
    var host := x + "." + domain + "." + ctx;
    assert host[|x| + |domain| + 2..] == ctx;
    assert host[..|x|] == x;
  }

  /** An occurrence of the dotted domain cuts the name at dots. */
  lemma CutAt(host: string, domain: string, i: nat)
    requires OccursAt(host, "." + domain + ".", i)
    ensures host == host[..i] + "." + domain + "." + host[i + |domain| + 2..]
  {
    var pat := "." + domain + ".";
    assert host == host[..i] + host[i..i + |pat|] + host[i + |pat|..];
  }

  /** Everything the parser accepts has one of the two forms. */
  lemma ParseInversion(host: string, domain: string) returns (x: string)
    requires ParseClusterHost(host, domain).Some?
    ensures var p := ParseClusterHost(host, domain).value;
      && FromLabels(Split(x), p.ctx) == Some(p) && '.' !in p.ctx
      && (p.ctx == "" ==> host == x + "." + domain)
      && (p.ctx != "" ==> host == x + "." + domain + "." + p.ctx)
  {
    var suffix := "." + domain;
    if HasSuffix(host, suffix) {
      x := host[..|host| - |suffix|];
      assert host == x + suffix;
    } else {
      var idx := LastIndex(host, suffix + ".");
      x := host[..idx];
      CutAt(host, domain, idx);
    }
  }

  // ---------------------------------------------------------------- printing and parsing

  lemma SplitTwoDots(a: string, b: string, c: string)
    ensures Split(a + "." + b + "." + c) == Split(a) + Split(b) + Split(c)
  {
    SplitDot(a + "." + b, c);
    SplitDot(a, b);
  }

  /** A list that is unchanged by moving one place left and adding `c` is all `c`. */
  lemma {:induction false} ShiftByOne(d: seq<string>, p: seq<string>, q: seq<string>, c: string)
    requires |d| >= 1 && p + d + [c] == q + d
    ensures forall i :: 0 <= i < |d| ==> d[i] == c
  {
    var labels := q + d;
    assert |q| == |p| + 1;
    assert forall i :: 0 <= i < |d| ==> labels[|q| + i] == d[i];
    assert forall i :: 0 <= i < |d| ==> labels[|p| + i] == d[i];
    assert labels[|q| + (|d| - 1)] == c;
    forall i | 0 <= i < |d| - 1 ensures d[i] == d[i + 1] {
      assert labels[|q| + i] == labels[|p| + (i + 1)];
    }
    AllEqualLast(d, c);
  }

  lemma {:induction false} AllEqualLast(d: seq<string>, c: string)
    requires |d| >= 1 && d[|d| - 1] == c
    requires forall i :: 0 <= i < |d| - 1 ==> d[i] == d[i + 1]
    ensures forall i :: 0 <= i < |d| ==> d[i] == c
  {
    if |d| > 1 {
      AllEqualLast(d[1..], c);
      assert d[1] == d[1..][0];
      assert forall i :: 1 <= i < |d| ==> d[i] == d[1..][i - 1];
    }
  }

  lemma Rotate(domain: string, ctx: string)
    requires '.' !in ctx && AllLabelsAre(domain, ctx)
    ensures domain + "." + ctx == ctx + "." + domain
  {
    var d := Split(domain);
    SplitDotFree(ctx);
    SplitDot(domain, ctx);
    SplitDot(ctx, domain);
    assert d + [ctx] == [ctx] + d;
    SplitInjective(domain + "." + ctx, ctx + "." + domain);
  }

  lemma Regroup(x: string, domain: string, ctx: string)
    ensures x + "." + domain + "." + ctx == x + "." + (domain + "." + ctx)
  {
  }

  lemma EndsInDomainOnlyIf(x: string, domain: string, ctx: string)
    requires '.' !in ctx && HasSuffix(x + "." + domain + "." + ctx, "." + domain)
    ensures AllLabelsAre(domain, ctx)
  {
    var host := x + "." + domain + "." + ctx;
    var y := host[..|host| - |domain| - 1];
    assert host == y + "." + domain;
    SplitTwoDots(x, domain, ctx);
    SplitDotFree(ctx);
    SplitDot(y, domain);
    ShiftByOne(Split(domain), Split(x), Split(y), ctx);
  }

  /** A context-suffixed name ends in the bare domain exactly when every label of the
      domain is that context. */
  lemma EndsInDomain(x: string, domain: string, ctx: string)
    requires ctx != "" && '.' !in ctx
    ensures HasSuffix(x + "." + domain + "." + ctx, "." + domain) <==> AllLabelsAre(domain, ctx)
  {
    var host := x + "." + domain + "." + ctx;
    if HasSuffix(host, "." + domain) {
      EndsInDomainOnlyIf(x, domain, ctx);
    }
    if AllLabelsAre(domain, ctx) {
      Rotate(domain, ctx);
      Regroup(x, domain, ctx);
      Regroup(x, ctx, domain);
      assert host == (x + "." + ctx) + ("." + domain);
    }
  }

  lemma SplitPrefix(h: Host)
    requires DotFree(h)
    ensures Split(h.svc + "." + h.ns) == [h.svc, h.ns]
    ensures Split(h.pod + "." + h.svc + "." + h.ns) == [h.pod, h.svc, h.ns]
  {
    SplitDotFree(h.pod);
    SplitDotFree(h.svc);
    SplitDotFree(h.ns);
    SplitDot(h.svc, h.ns);
    SplitDot(h.pod, h.svc + "." + h.ns);
    assert h.pod + "." + (h.svc + "." + h.ns) == h.pod + "." + h.svc + "." + h.ns;
  }

  /** Printing then parsing is the identity on dot-free parts, except exactly when the
      context is every label of the domain. */
  lemma ParseOfPrint(h: Host, domain: string)
    requires DotFree(h)
    ensures ParseClusterHost(Print(h, domain), domain) == Some(h)
            <==> h.ctx == "" || !AllLabelsAre(domain, h.ctx)
  {
    var x := if h.pod == "" then h.svc + "." + h.ns else h.pod + "." + h.svc + "." + h.ns;
    SplitPrefix(h);
    ParseOfForm(h, x, domain);
  }

  lemma ParseOfForm(h: Host, x: string, domain: string)
    requires '.' !in h.ctx && FromLabels(Split(x), h.ctx) == Some(h)
    requires Print(h, domain) == x + "." + domain + (if h.ctx == "" then "" else "." + h.ctx)
    ensures ParseClusterHost(Print(h, domain), domain) == Some(h)
            <==> h.ctx == "" || !AllLabelsAre(domain, h.ctx)
  {
    if h.ctx == "" {
      assert Print(h, domain) == x + "." + domain;
      ParseBare(x, domain);
    } else {
      assert Print(h, domain) == x + "." + domain + "." + h.ctx;
      EndsInDomain(x, domain, h.ctx);
      if !AllLabelsAre(domain, h.ctx) {
        ParseContext(x, domain, h.ctx);
      }
    }
  }

  lemma JoinTwo(parts: seq<string>)
    requires |parts| == 2
    ensures Join(parts) == parts[0] + "." + parts[1]
  {
    assert Join(parts[1..]) == parts[1];
  }

  lemma JoinThree(parts: seq<string>)
    requires |parts| == 3
    ensures Join(parts) == parts[0] + "." + parts[1] + "." + parts[2]
  {
    JoinTwo(parts[1..]);
    assert parts[0] + "." + (parts[1] + "." + parts[2]) == parts[0] + "." + parts[1] + "." + parts[2];
  }

  /** What the printer writes when the pod label is always there, even when empty. */
  function PrintFull(p: Host, domain: string): string {
    (p.pod + "." + p.svc + "." + p.ns) + "." + domain + (if p.ctx == "" then "" else "." + p.ctx)
  }

  lemma PrintFullForm(p: Host, domain: string)
    ensures PrintFull(p, domain) == if p.pod == "" then "." + Print(p, domain) else Print(p, domain)
  {
  }

  lemma PrintBack(p: Host, domain: string, x: string, host: string)
    requires FromLabels(Split(x), p.ctx) == Some(p)
    requires host == x + "." + domain + (if p.ctx == "" then "" else "." + p.ctx)
    ensures Print(p, domain) == host || (p.pod == "" && "." + Print(p, domain) == host)
  {
    JoinSplit(x);
    if |Split(x)| == 2 {
      JoinTwo(Split(x));
    } else {
      JoinThree(Split(x));
      PrintFullForm(p, domain);
    }
  }

  /** Parsing then printing gives the name back, up to the one empty pod label the parser drops. */
  lemma PrintOfParse(host: string, domain: string)
    requires ParseClusterHost(host, domain).Some?
    ensures var p := ParseClusterHost(host, domain).value;
      && DotFree(p) && (Print(p, domain) == host || (p.pod == "" && "." + Print(p, domain) == host))
  {
    var p := ParseClusterHost(host, domain).value;
    var x := ParseInversion(host, domain);
    LabelsDotFree(Split(x), p);
    PrintBack(p, domain, x, host);
  }

  lemma LabelsDotFree(parts: seq<string>, p: Host)
    requires FromLabels(parts, p.ctx) == Some(p) && '.' !in p.ctx
    requires forall i :: 0 <= i < |parts| ==> '.' !in parts[i]
    ensures DotFree(p)
  {
  }

  // ---------------------------------------------------------------- rewriting the context

  lemma DropContext(front: string, ctx: string)
    ensures var base := front + "." + ctx; base[..|base| - |ctx| - 1] == front
  {
  }

  lemma StemForm(qname: string, domain: string) returns (x: string)
    requires ParseClusterHost(TrimSuffix(qname, "."), domain).Some?
    ensures var p := ParseClusterHost(TrimSuffix(qname, "."), domain).value;
      FromLabels(Split(x), p.ctx) == Some(p)
    ensures Stem(qname, domain) == x + "." + domain
  {
    var base := TrimSuffix(qname, ".");
    x := ParseInversion(base, domain);
    var p := ParseClusterHost(base, domain).value;
    if p.ctx != "" {
      DropContext(x + "." + domain, p.ctx);
    }
  }

  lemma TrimRewrite(qname: string, domain: string, ctx: string)
    ensures TrimSuffix(ContextFQDN(qname, ctx, domain), ".") == Stem(qname, domain) + "." + ctx
  {
    var target := ContextFQDN(qname, ctx, domain);
    assert target == (Stem(qname, domain) + "." + ctx) + ".";
  }

  /** The rewritten target of any parseable query re-parses to the same pod, service and
      namespace in the new context, except exactly when that context is every label of the
      domain. */
  lemma RewriteReparses(qname: string, domain: string, ctx: string)
    requires ParseClusterHost(TrimSuffix(qname, "."), domain).Some?
    requires ctx != "" && '.' !in ctx
    ensures ParseClusterHost(TrimSuffix(ContextFQDN(qname, ctx, domain), "."), domain)
            == Some(ParseClusterHost(TrimSuffix(qname, "."), domain).value.(ctx := ctx))
            <==> !AllLabelsAre(domain, ctx)
  {
    var x := StemForm(qname, domain);
    TrimRewrite(qname, domain, ctx);
    EndsInDomain(x, domain, ctx);
    if !AllLabelsAre(domain, ctx) {
      ParseContext(x, domain, ctx);
    }
  }

  /** Of two rewrites the last one wins, except exactly when the first context is every label of the
      domain and so stays in the name. */
  lemma LastRewriteWins(qname: string, domain: string, first: string, second: string)
    requires ParseClusterHost(TrimSuffix(qname, "."), domain).Some?
    requires first != "" && '.' !in first
    ensures ContextFQDN(ContextFQDN(qname, first, domain), second, domain) == ContextFQDN(qname, second, domain)
            <==> !AllLabelsAre(domain, first)
  {
    TrimRewrite(qname, domain, first);
    if AllLabelsAre(domain, first) {
      var x := StemForm(qname, domain);
      EndsInDomain(x, domain, first);
      assert |Stem(ContextFQDN(qname, first, domain), domain)| == |Stem(qname, domain)| + 1 + |first|;
    } else {
      RewriteReparses(qname, domain, first);
      DropContext(Stem(qname, domain), first);
    }
  }

  // ---------------------------------------------------------------- the recogniser

  /** The name is something before the dotted domain and a one-label context after it, and the domain
      with dots around it occurs nowhere earlier. */
  ghost predicate HasContext(host: string, domain: string, x: string, ctx: string) {
    && host == x + "." + domain + "." + ctx && ctx != "" && '.' !in ctx
    && forall j: nat :: j < |x| ==> !OccursAt(host, "." + domain + ".", j)
  }

  /** A name is recognised exactly when it ends in the dotted domain, with or without a final dot, or
      has a one-label context after the first occurrence of it. */
  lemma RecognisedIff(host: string, domain: string)
    ensures IsClusterHost(host, domain) <==>
      || (exists x :: host == x + "." + domain) || (exists x :: host == x + "." + domain + ".")
      || (exists x, ctx :: HasContext(host, domain, x, ctx))
  {
    SuffixIff(host, "." + domain);
    SuffixIff(host, "." + domain + ".");
    assert forall x: string :: x + "." + domain == x + ("." + domain);
    assert forall x: string :: x + "." + domain + "." == x + ("." + domain + ".");
    ContextIff(host, domain);
  }

  lemma SuffixIff(s: string, t: string)
    ensures HasSuffix(s, t) <==> exists x :: s == x + t
  {
    if HasSuffix(s, t) {
      assert s == s[..|s| - |t|] + t;
    }
  }

  lemma ContextIff(host: string, domain: string)
    ensures var pat := "." + domain + "."; var idx := Index(host, pat);
      (idx >= 0 && host[idx + |pat|..] != "" && '.' !in host[idx + |pat|..]) <==> exists x, ctx :: HasContext(host, domain, x, ctx)
  {
    var pat := "." + domain + ".";
    var idx := Index(host, pat);
    if idx >= 0 && host[idx + |pat|..] != "" && '.' !in host[idx + |pat|..] {
      CutAt(host, domain, idx);
      assert HasContext(host, domain, host[..idx], host[idx + |pat|..]);
    }
    if x, ctx :| HasContext(host, domain, x, ctx) {
      assert host == x + pat + ctx && OccursAt(host, pat, |x|);
      assert host[|x| + |pat|..] == ctx;
    }
  }

  // ---------------------------------------------------------------- parser against recogniser

  /** Two overlapping copies of `d` in one list, one or two places apart, give it period two. */
  lemma Overlap(d: seq<string>, p: seq<string>, q: seq<string>, p': seq<string>, q': seq<string>)
    requires p + d + q == p' + d + q'
    requires 1 <= |p| - |p'| <= 2
    ensures forall k :: 0 <= k < |d| - 2 ==> d[k + 2] == d[k]
  {
    var labels := p + d + q;
    assert forall k :: 0 <= k < |d| ==> labels[|p| + k] == d[k];
    assert forall k :: 0 <= k < |d| ==> labels[|p'| + k] == d[k];
    forall k | 0 <= k < |d| - 2 ensures d[k + 2] == d[k] {
      if |p| - |p'| == 2 {
        assert d[k + 2] == labels[|p'| + (k + 2)] == labels[|p| + k];
      } else {
        assert d[k + 1] == labels[|p'| + (k + 1)] == labels[|p| + k];
        assert d[k + 2] == labels[|p'| + (k + 2)] == labels[|p| + (k + 1)];
      }
    }
  }

  /** Stopping at a dot inside a name leaves fewer labels. */
  lemma FewerLabels(x: string, i: nat)
    requires i < |x| && x[i] == '.'
    ensures |Split(x[..i])| < |Split(x)|
  {
    assert x == x[..i] + "." + x[i + 1..];
    SplitDot(x[..i], x[i + 1..]);
  }

  /** A second, earlier occurrence of the domain in an accepted name forces the domain's
      labels to repeat with period two. */
  lemma EarlierOccurrence(host: string, domain: string, x: string, ctx: string, i: nat)
    requires host == x + "." + domain + "." + ctx
    requires 2 <= |Split(x)| <= 3
    requires i < |x| && OccursAt(host, "." + domain + ".", i)
    ensures PeriodTwo(domain)
  {
    CutAt(host, domain, i);
    OccurrenceEndsInDot(host, domain, i);
    var y, rest := host[..i], host[i + |domain| + 2..];
    SplitTwoDots(x, domain, ctx);
    SplitTwoDots(y, domain, rest);
    assert y == x[..i] && x[i] == host[i];
    FewerLabels(x, i);
    Overlap(Split(domain), Split(x), Split(ctx), Split(y), Split(rest));
  }

  /** Two neighbouring labels, or the only one. */
  function Pair(d: seq<string>, i: nat): string
    requires |d| == 1 || i + 1 < |d|
  {
    if |d| == 1 then d[0] else d[i] + "." + d[i + 1]
  }

  lemma PairLabels(d: seq<string>, i: nat)
    requires |d| == 1 || i + 1 < |d|
    requires forall j :: 0 <= j < |d| ==> '.' !in d[j]
    ensures Split(Pair(d, i)) == if |d| == 1 then d else [d[i], d[i + 1]]
  {
    if |d| == 1 {
      SplitDotFree(d[0]);
    } else {
      SplitDotFree(d[i]);
      SplitDotFree(d[i + 1]);
      SplitDot(d[i], d[i + 1]);
    }
  }

  /** The labels put in front of a period-two domain to make it appear twice. */
  function Lead(domain: string): string {
    Pair(Split(domain), 0)
  }

  /** The last two labels of the domain. */
  function Tail(domain: string): string {
    var d := Split(domain);
    Pair(d, if |d| == 1 then 0 else |d| - 2)
  }

  lemma PeriodTwoShift(d: seq<string>)
    requires |d| >= 2 && forall i :: 0 <= i < |d| - 2 ==> d[i + 2] == d[i]
    ensures [d[0], d[1]] + d == d + [d[|d| - 2], d[|d| - 1]]
  {
    var left, right := [d[0], d[1]] + d, d + [d[|d| - 2], d[|d| - 1]];
    forall i | 0 <= i < |left| ensures left[i] == right[i] {
      if 2 <= i < |d| {
        assert d[(i - 2) + 2] == d[i - 2];
      }
    }
  }

  /** With period two, the lead followed by the domain starts with the domain again. */
  lemma ShiftedDomain(domain: string)
    requires PeriodTwo(domain)
    ensures Lead(domain) + "." + domain == domain + "." + Tail(domain)
  {
    var d := Split(domain);
    PairLabels(d, 0);
    PairLabels(d, if |d| == 1 then 0 else |d| - 2);
    SplitDot(Lead(domain), domain);
    SplitDot(domain, Tail(domain));
    if |d| > 1 {
      PeriodTwoShift(d);
    }
    SplitInjective(Lead(domain) + "." + domain, domain + "." + Tail(domain));
  }

  /** A dot-free tail longer than the domain keeps the name from ending in the domain. */
  lemma LongTail(front: string, ctx: string, domain: string)
    requires '.' !in ctx && |ctx| == |domain| + 1
    ensures !HasSuffix(front + ctx, "." + domain)
  {
    assert (front + ctx)[|front + ctx| - |ctx|..] == ctx;
    assert ctx[0] != ("." + domain)[0];
  }

  lemma NoTrailingDot(front: string, ctx: string, t: string)
    requires '.' !in ctx && ctx != ""
    ensures !HasSuffix(front + ctx, t + ".")
  {
    var host, pat := front + ctx, t + ".";
    assert host[|host| - 1] == ctx[|ctx| - 1] != '.';
  }

  /** A name the parser accepts and the recogniser refuses, for a domain of period two. */
  lemma RefusedWitness(domain: string) returns (host: string)
    requires PeriodTwo(domain)
    ensures ParseClusterHost(host, domain).Some? && !IsClusterHost(host, domain)
  {
    var ctx := seq(|domain| + 1, _ => 'x');
    var x := "a" + "." + Lead(domain);
    host := x + "." + domain + "." + ctx;
    LongTail(x + "." + domain + ".", ctx, domain);
    NoTrailingDot(x + "." + domain + ".", ctx, "." + domain);
    ParseContext(x, domain, ctx);
    PairLabels(Split(domain), 0);
    SplitDotFree("a");
    SplitDot("a", Lead(domain));
    ShiftedDomain(domain);
    Regroup("a", Lead(domain), domain);
    Regroup("a", domain, Tail(domain));
    assert host == "a" + "." + domain + "." + Tail(domain) + "." + ctx;
    FirstOccurrenceTooEarly(domain, Tail(domain), ctx);
  }

  lemma FirstOccurrenceTooEarly(domain: string, tail: string, ctx: string)
    ensures var host, pat := "a" + "." + domain + "." + tail + "." + ctx, "." + domain + ".";
      0 <= Index(host, pat) <= 1 && '.' in host[Index(host, pat) + |pat|..]
  {
    var pat := "." + domain + ".";
    var host := "a" + "." + domain + "." + tail + "." + ctx;
    assert host == "a" + pat + (tail + "." + ctx);
    assert OccursAt(host, pat, 1);
    var idx := Index(host, pat);
    var dot := 1 + |pat| + |tail|;
    assert host[dot] == '.';
    assert host[idx + |pat|..][dot - idx - |pat|] == '.';
  }

  /** The SOCKS5 recogniser accepts every name the parser accepts, for a given domain, if and
      only if the labels of the domain do not repeat with period two. */
  lemma RecogniserCoversParser(domain: string)
    ensures (forall host :: ParseClusterHost(host, domain).Some? ==> IsClusterHost(host, domain))
            <==> !PeriodTwo(domain)
  {
    if PeriodTwo(domain) {
      var host := RefusedWitness(domain);
    } else {
      forall host | ParseClusterHost(host, domain).Some? ensures IsClusterHost(host, domain) {
        AcceptedUnlessPeriodic(host, domain);
      }
    }
  }

  lemma AcceptedUnlessPeriodic(host: string, domain: string)
    requires !PeriodTwo(domain) && ParseClusterHost(host, domain).Some?
    ensures IsClusterHost(host, domain)
  {
    var ctx := ParseClusterHost(host, domain).value.ctx;
    var x := ParseInversion(host, domain);
    if ctx == "" {
      assert host == x + ("." + domain);
    } else {
      var idx := Index(host, "." + domain + ".");
      if idx < |x| {
        EarlierOccurrence(host, domain, x, ctx, idx);
        assert false;
      }
      assert idx == |x|;
      assert host[|x| + |domain| + 2..] == ctx;
    }
  }

  /** A three-label domain is covered as soon as its first and last labels differ; the
      default `svc.cluster.local` is one. */
  lemma ThreeLabelDomainCovered(a: string, b: string, c: string, host: string)
    requires '.' !in a && '.' !in b && '.' !in c && a != c
    requires ParseClusterHost(host, a + "." + b + "." + c).Some?
    ensures IsClusterHost(host, a + "." + b + "." + c)
  {
    SplitDotFree(a);
    SplitDotFree(b);
    SplitDotFree(c);
    SplitTwoDots(a, b, c);
    var d := Split(a + "." + b + "." + c);
    assert d[0 + 2] != d[0];
    AcceptedUnlessPeriodic(host, a + "." + b + "." + c);
  }
}
