/** The DNS server object: resolving, looking up, and building the response to a message. */
module DnsServer {
  import opened Wrappers
  import opened Strings
  import opened ClusterName
  import opened ServiceKeys
  import opened Resolution
  import opened DnsLookup
  import A = Allocator
  import F = ForwardManager

  datatype QType = TypeA | TypeTXT | TypeSRV | OtherType

  datatype Question = Question(name: string, qtype: QType)

  datatype Record =
    | ARecord(name: string, ip: Addr)
    | TxtRecord(name: string, ip: Addr, ctx: string)
    | SrvRecord(name: string, port: nat, target: string)

  datatype Rcode = NoError | NameError

  datatype Message = Message(rcode: Rcode, answer: seq<Record>, extra: seq<Record>)

  // ---------------------------------------------------------------- records

  function ARecords(name: string, rs: seq<ContextVip>): seq<Record> {
    if rs == [] then [] else [ARecord(name, rs[0].vip)] + ARecords(name, rs[1..])
  }

  function TxtRecords(name: string, rs: seq<ContextVip>): seq<Record> {
    if rs == [] then [] else [TxtRecord(name, rs[0].vip, rs[0].ctx)] + TxtRecords(name, rs[1..])
  }

  /** Port numbers are cut to 16 bits; port 0 is left out. */
  function PortRecords(name: string, target: string, ports: seq<int>): seq<Record> {
    if ports == [] then []
    else (if ports[0] == 0 then [] else [SrvRecord(name, ports[0] % 0x1_0000, target)]) + PortRecords(name, target, ports[1..])
  }

  function SrvRecords(name: string, domain: string, rs: seq<ContextVip>): seq<Record> {
    if rs == [] then []
    else PortRecords(name, ContextFQDN(name, rs[0].ctx, domain), rs[0].ports) + SrvRecords(name, domain, rs[1..])
  }

  /** The additional section of an A response: for each answer its context, then its ports. */
  function ExtraRecords(name: string, domain: string, rs: seq<ContextVip>): seq<Record> {
    if rs == [] then []
    else [TxtRecord(name, rs[0].vip, rs[0].ctx)] + PortRecords(name, ContextFQDN(name, rs[0].ctx, domain), rs[0].ports)
         + ExtraRecords(name, domain, rs[1..])
  }

  /** The answers of an A response are the addresses, in order; the answers of a TXT response are the
      addresses with their contexts. */
  lemma {:induction false} AddressRecords(name: string, rs: seq<ContextVip>, i: nat)
    requires i < |rs|
    ensures |ARecords(name, rs)| == |rs| && ARecords(name, rs)[i] == ARecord(name, rs[i].vip)
    ensures |TxtRecords(name, rs)| == |rs| && TxtRecords(name, rs)[i] == TxtRecord(name, rs[i].vip, rs[i].ctx)
    decreases |rs|
  {
    if |rs| > 1 {
      AddressRecords(name, rs[1..], if i > 0 then i - 1 else 0);
    }
  }

  /** An SRV record is there exactly for each port other than 0 of each address; it carries the name
      asked, the port number in 16 bits, and the name of the service in that address's context. */
  lemma {:induction false} ServiceRecords(name: string, domain: string, rs: seq<ContextVip>, r: Record)
    ensures r in SrvRecords(name, domain, rs) <==>
      exists i, j :: 0 <= i < |rs| && 0 <= j < |rs[i].ports| && ForPort(r, name, domain, rs[i].ctx, rs[i].ports[j])
    decreases |rs|
  {
    if rs != [] {
      var head, rest := rs[0], rs[1..];
      ServiceRecords(name, domain, rest, r);
      PortRecordsMean(name, ContextFQDN(name, head.ctx, domain), head.ports, r);
      if r in SrvRecords(name, domain, rest) {
        var i, j :| 0 <= i < |rest| && 0 <= j < |rest[i].ports| && ForPort(r, name, domain, rest[i].ctx, rest[i].ports[j]);
        assert rs[i + 1] == rest[i] && ForPort(r, name, domain, rs[i + 1].ctx, rs[i + 1].ports[j]);
      }
      if r in PortRecords(name, ContextFQDN(name, head.ctx, domain), head.ports) {
        var j :| 0 <= j < |head.ports| && head.ports[j] != 0 && r == SrvRecord(name, head.ports[j] % 0x1_0000, ContextFQDN(name, head.ctx, domain));
        assert ForPort(r, name, domain, rs[0].ctx, rs[0].ports[j]);
      }
      if i, j :| 0 <= i < |rs| && 0 <= j < |rs[i].ports| && ForPort(r, name, domain, rs[i].ctx, rs[i].ports[j]) {
        assert i > 0 ==> rest[i - 1] == rs[i];
      }
    }
  }

  predicate ForPort(r: Record, name: string, domain: string, ctx: string, port: int) {
    port != 0 && r == SrvRecord(name, port % 0x1_0000, ContextFQDN(name, ctx, domain))
  }

  lemma {:induction false} PortRecordsMean(name: string, target: string, ports: seq<int>, r: Record)
    ensures r in PortRecords(name, target, ports) <==>
      exists j :: 0 <= j < |ports| && ports[j] != 0 && r == SrvRecord(name, ports[j] % 0x1_0000, target)
    decreases |ports|
  {
    if ports != [] {
      PortRecordsMean(name, target, ports[1..], r);
      assert forall j :: 0 <= j < |ports| - 1 ==> ports[1..][j] == ports[j + 1];
      if j :| 0 <= j < |ports| - 1 && ports[1..][j] != 0 && r == SrvRecord(name, ports[1..][j] % 0x1_0000, target) {
        assert ports[j + 1] != 0;
      }
      if j :| 0 <= j < |ports| && ports[j] != 0 && r == SrvRecord(name, ports[j] % 0x1_0000, target) {
        assert j > 0 ==> ports[1..][j - 1] == ports[j];
      }
    }
  }

  // ---------------------------------------------------------------- a message

  /** A response under construction. */
  datatype Progress = Progress(p: Proxy, msg: Message, hadA: bool, count: nat)

  function Answer(s: Progress, q: Question, domain: string, w: World): (s': Progress)
    requires Ready(s.p)
    ensures Ready(s'.p)
  {
    match q.qtype
    case TypeA =>
      var (p, rs) := ResolveA(s.p, q.name, domain, w);
      Progress(p, s.msg.(answer := s.msg.answer + ARecords(q.name, rs), extra := s.msg.extra + ExtraRecords(q.name, domain, rs)),
               true, s.count + |rs|)
    case TypeTXT =>
      if !ServiceExists(s.p.a, q.name, domain, w) then s.(msg := s.msg.(rcode := NameError))
      else s.(msg := s.msg.(answer := s.msg.answer + TxtRecords(q.name, TxtFor(s.p.a, q.name, domain, w))))
    case TypeSRV =>
      if !ServiceExists(s.p.a, q.name, domain, w) then s.(msg := s.msg.(rcode := NameError))
      else s.(msg := s.msg.(answer := s.msg.answer + SrvRecords(q.name, domain, SrvFor(s.p.a, q.name, domain, w))))
    case OtherType => s
  }

  /** Only A questions act on the proxy. */
  lemma AnswerProxy(s: Progress, q: Question, domain: string, w: World)
    requires Ready(s.p)
    ensures Answer(s, q, domain, w).p == if q.qtype == TypeA then ResolveA(s.p, q.name, domain, w).0 else s.p
  {
  }

  function AnswerAll(s: Progress, qs: seq<Question>, domain: string, w: World): (s': Progress)
    requires Ready(s.p)
    ensures Ready(s'.p)
    decreases |qs|
  {
    if qs == [] then s else AnswerAll(Answer(s, qs[0], domain, w), qs[1..], domain, w)
  }

  function Finish(s: Progress): Message {
    if s.hadA && s.count == 0 then s.msg.(rcode := NameError) else s.msg
  }

  function Respond(p: Proxy, qs: seq<Question>, domain: string, w: World): (r: (Proxy, Message))
    requires Ready(p)
    ensures Ready(r.0)
  {
    var s := AnswerAll(Progress(p, Message(NoError, [], []), false, 0), qs, domain, w);
    (s.p, Finish(s))
  }

  lemma RespondOne(p: Proxy, q: Question, domain: string, w: World)
    requires Ready(p)
    ensures var s := Answer(Progress(p, Message(NoError, [], []), false, 0), q, domain, w);
      Respond(p, [q], domain, w) == (s.p, Finish(s))
  {
    var s := Progress(p, Message(NoError, [], []), false, 0);
    var qs := [q];
    assert qs[1..] == [];
    assert AnswerAll(Answer(s, q, domain, w), qs[1..], domain, w) == Answer(s, q, domain, w);
  }

  // ---------------------------------------------------------------- several questions

  const NOTHING := Message(NoError, [], [])

  /** The response under construction when question `i` is taken up. */
  function Upto(p: Proxy, qs: seq<Question>, domain: string, w: World, i: nat): (s: Progress)
    requires Ready(p) && i <= |qs|
    ensures Ready(s.p)
  {
    AnswerAll(Progress(p, NOTHING, false, 0), qs[..i], domain, w)
  }

  lemma {:induction false} AnswerSnoc(s: Progress, qs: seq<Question>, n: nat, domain: string, w: World)
    requires Ready(s.p) && n < |qs|
    ensures AnswerAll(s, qs[..n + 1], domain, w) == Answer(AnswerAll(s, qs[..n], domain, w), qs[n], domain, w)
    decreases n
  {
    if n == 0 {
      assert qs[..1] == [qs[0]] && qs[..0] == [] && [qs[0]][1..] == [];
      assert AnswerAll(Answer(s, qs[0], domain, w), qs[..1][1..], domain, w) == Answer(s, qs[0], domain, w);
    } else {
      assert qs[..n + 1][1..] == qs[1..][..n] && qs[..n][1..] == qs[1..][..n - 1];
      AnswerSnoc(Answer(s, qs[0], domain, w), qs[1..], n - 1, domain, w);
    }
  }

  /** A TXT or SRV question about a service that no context asked knows. */
  predicate Denied(p: Proxy, q: Question, domain: string, w: World) {
    (q.qtype == TypeTXT || q.qtype == TypeSRV) && !ServiceExists(p.a, q.name, domain, w)
  }

  /** How many addresses a question is answered with. */
  function AddressesFor(p: Proxy, q: Question, domain: string, w: World): nat
    requires Ready(p)
  {
    if q.qtype == TypeA then |ResolveA(p, q.name, domain, w).1| else 0
  }

  /** What one question amounts to, or several. */
  datatype Tally = Tally(denied: bool, asked: bool, addresses: nat)

  function TallyOf(p: Proxy, q: Question, domain: string, w: World): Tally
    requires Ready(p)
  {
    Tally(Denied(p, q, domain, w), q.qtype == TypeA, AddressesFor(p, q, domain, w))
  }

  /** The questions of a message, each in the state of the proxy at its turn. */
  function Tallies(p: Proxy, qs: seq<Question>, domain: string, w: World): (ts: seq<Tally>)
    requires Ready(p)
    ensures |ts| == |qs| && forall i :: 0 <= i < |qs| ==> ts[i] == TallyOf(Upto(p, qs, domain, w, i).p, qs[i], domain, w)
  {
    seq(|qs|, i requires 0 <= i < |qs| => TallyOf(Upto(p, qs, domain, w, i).p, qs[i], domain, w))
  }

  function Total(ts: seq<Tally>, n: nat): Tally
    requires n <= |ts|
  {
    if n == 0 then Tally(false, false, 0) else Plus(Total(ts, n - 1), ts[n - 1])
  }

  function Plus(t: Tally, one: Tally): Tally {
    Tally(t.denied || one.denied, t.asked || one.asked, t.addresses + one.addresses)
  }

  lemma {:induction false} TotalMeans(ts: seq<Tally>, n: nat)
    requires n <= |ts|
    ensures var t := Total(ts, n);
      && (t.denied <==> exists i :: 0 <= i < n && ts[i].denied)
      && (t.asked <==> exists i :: 0 <= i < n && ts[i].asked)
      && (t.addresses == 0 <==> forall i :: 0 <= i < n ==> ts[i].addresses == 0)
  {
    if n > 0 {
      TotalMeans(ts, n - 1);
    }
  }

  function TallySoFar(s: Progress): Tally {
    Tally(s.msg.rcode == NameError, s.hadA, s.count)
  }

  lemma OneMore(s: Progress, q: Question, domain: string, w: World)
    requires Ready(s.p)
    ensures TallySoFar(Answer(s, q, domain, w)) == Plus(TallySoFar(s), TallyOf(s.p, q, domain, w))
  {
  }

  /** The tally after so many questions. */
  function TallyUpto(p: Proxy, qs: seq<Question>, domain: string, w: World, n: nat): Tally
    requires Ready(p) && n <= |qs|
  {
    TallySoFar(Upto(p, qs, domain, w, n))
  }

  lemma TallyStep(p: Proxy, qs: seq<Question>, domain: string, w: World, n: nat)
    requires Ready(p) && n < |qs|
    ensures TallyUpto(p, qs, domain, w, n + 1) == Plus(TallyUpto(p, qs, domain, w, n), Tallies(p, qs, domain, w)[n])
  {
    UptoStep(p, qs, domain, w, n);
    OneMore(Upto(p, qs, domain, w, n), qs[n], domain, w);
  }

  /** Adding one at a time gives the total. */
  lemma {:induction false} Accumulates(us: seq<Tally>, ts: seq<Tally>, n: nat)
    requires |us| == |ts| + 1 && n <= |ts| && us[0] == Tally(false, false, 0)
    requires forall i :: 0 <= i < |ts| ==> us[i + 1] == Plus(us[i], ts[i])
    ensures us[n] == Total(ts, n)
  {
    if n > 0 {
      Accumulates(us, ts, n - 1);
      assert us[n - 1 + 1] == Plus(us[n - 1], ts[n - 1]);
    }
  }

  lemma KeepsTally(p: Proxy, qs: seq<Question>, domain: string, w: World)
    requires Ready(p)
    ensures TallyUpto(p, qs, domain, w, |qs|) == Total(Tallies(p, qs, domain, w), |qs|)
  {
    var us := seq(|qs| + 1, n requires 0 <= n <= |qs| => TallyUpto(p, qs, domain, w, n));
    var ts := Tallies(p, qs, domain, w);
    forall i | 0 <= i < |ts| ensures us[i + 1] == Plus(us[i], ts[i]) {
      TallyStep(p, qs, domain, w, i);
    }
    assert qs[..0] == [];
    Accumulates(us, ts, |qs|);
  }

  lemma UptoStep(p: Proxy, qs: seq<Question>, domain: string, w: World, n: nat)
    requires Ready(p) && n < |qs|
    ensures Upto(p, qs, domain, w, n + 1) == Answer(Upto(p, qs, domain, w, n), qs[n], domain, w)
  {
    AnswerSnoc(Progress(p, NOTHING, false, 0), qs, n, domain, w);
  }

  /** A response to any number of questions is Name Error exactly when a TXT or SRV question was denied,
      or there were A questions and none of them was answered. */
  lemma MessageCode(p: Proxy, qs: seq<Question>, domain: string, w: World)
    requires Ready(p)
    ensures var ts := Tallies(p, qs, domain, w);
      Respond(p, qs, domain, w).1.rcode == NameError <==>
        || (exists i :: 0 <= i < |ts| && ts[i].denied)
        || ((exists i :: 0 <= i < |ts| && ts[i].asked) && forall i :: 0 <= i < |ts| ==> ts[i].addresses == 0)
  {
    var ts := Tallies(p, qs, domain, w);
    KeepsTally(p, qs, domain, w);
    assert qs[..|qs|] == qs;
    TotalMeans(ts, |qs|);
  }

  // ---------------------------------------------------------------- what responses promise

  /** TXT, SRV and unsupported questions change nothing, however many a message holds. */
  lemma {:induction false} LookingChangesNothing(s: Progress, qs: seq<Question>, domain: string, w: World)
    requires Ready(s.p) && forall i :: 0 <= i < |qs| ==> qs[i].qtype != TypeA
    ensures AnswerAll(s, qs, domain, w).p == s.p
    decreases |qs|
  {
    if qs != [] {
      assert Answer(s, qs[0], domain, w).p == s.p;
      LookingChangesNothing(Answer(s, qs[0], domain, w), qs[1..], domain, w);
    }
  }

  /** For one name in one state: TXT and SRV agree on whether it exists, and deny it exactly when an A
      query would deny it without an address or a listener having been refused. Asking about a denied
      name leaves the proxy as it is. */
  lemma ResponseCodes(p: Proxy, name: string, domain: string, w: World)
    requires Ready(p) && A.AllocInv(p.a) && Distinct(w.contexts)
    ensures var txt := Respond(p, [Question(name, TypeTXT)], domain, w);
      var srv := Respond(p, [Question(name, TypeSRV)], domain, w);
      var a := Respond(p, [Question(name, TypeA)], domain, w);
      && txt.0 == p && srv.0 == p && txt.1.rcode == srv.1.rcode
      && (txt.1.rcode == NameError <==> a.1.rcode == NameError && !NameRefused(p, name, domain, w))
      && (txt.1.rcode == NameError ==> a.0 == p)
      && (a.1.rcode == NameError <==> a.1.answer == [])
  {
    RespondOne(p, Question(name, TypeTXT), domain, w);
    RespondOne(p, Question(name, TypeSRV), domain, w);
    RespondOne(p, Question(name, TypeA), domain, w);
    DeniedIff(p, name, domain, w);
  }

  predicate OfType(qtype: QType, r: Record) {
    (qtype == TypeA && r.ARecord?) || (qtype == TypeTXT && r.TxtRecord?) || (qtype == TypeSRV && r.SrvRecord?)
  }

  /** The records of one type, in order. */
  function Only(qtype: QType, records: seq<Record>): seq<Record> {
    if records == [] then []
    else (if OfType(qtype, records[0]) then [records[0]] else []) + Only(qtype, records[1..])
  }

  lemma {:induction false} OnlyConcat(qtype: QType, x: seq<Record>, y: seq<Record>)
    ensures Only(qtype, x + y) == Only(qtype, x) + Only(qtype, y)
    decreases |x|
  {
    if x == [] {
      assert x + y == y;
    } else {
      var xy := x + y;
      assert xy[0] == x[0] && xy[1..] == x[1..] + y;
      OnlyConcat(qtype, x[1..], y);
      Associative(if OfType(qtype, x[0]) then [x[0]] else [], Only(qtype, x[1..]), Only(qtype, y));
    }
  }

  lemma OnlySingle(qtype: QType, r: Record)
    ensures Only(qtype, [r]) == if OfType(qtype, r) then [r] else []
  {
    var rs := [r];
    assert rs[1..] == [];
  }

  lemma {:induction false} PortRecordsOnly(qtype: QType, name: string, target: string, ports: seq<int>)
    ensures Only(qtype, PortRecords(name, target, ports)) == if qtype == TypeSRV then PortRecords(name, target, ports) else []
    decreases |ports|
  {
    if ports != [] {
      var rest := PortRecords(name, target, ports[1..]);
      PortRecordsOnly(qtype, name, target, ports[1..]);
      if ports[0] != 0 {
        var r := SrvRecord(name, ports[0] % 0x1_0000, target);
        OnlyConcat(qtype, [r], rest);
        OnlySingle(qtype, r);
      } else {
        assert PortRecords(name, target, ports) == rest;
      }
    }
  }

  /** The additional section is the TXT records and the SRV records of the answers, interleaved. */
  lemma {:induction false} ExtraSplits(name: string, domain: string, rs: seq<ContextVip>)
    ensures Only(TypeTXT, ExtraRecords(name, domain, rs)) == TxtRecords(name, rs)
    ensures Only(TypeSRV, ExtraRecords(name, domain, rs)) == SrvRecords(name, domain, rs)
    decreases |rs|
  {
    if rs != [] {
      var txt := TxtRecord(name, rs[0].vip, rs[0].ctx);
      var target := ContextFQDN(name, rs[0].ctx, domain);
      var ports := PortRecords(name, target, rs[0].ports);
      ExtraSplits(name, domain, rs[1..]);
      PortRecordsOnly(TypeTXT, name, target, rs[0].ports);
      PortRecordsOnly(TypeSRV, name, target, rs[0].ports);
      OnlyParts(TypeTXT, txt, ports, ExtraRecords(name, domain, rs[1..]));
      OnlyParts(TypeSRV, txt, ports, ExtraRecords(name, domain, rs[1..]));
      assert [txt] + [] == [txt] && [] + ports == ports;
    }
  }

  lemma OnlyParts(qtype: QType, txt: Record, ports: seq<Record>, rest: seq<Record>)
    ensures Only(qtype, [txt] + ports + rest) == (if OfType(qtype, txt) then [txt] else []) + Only(qtype, ports) + Only(qtype, rest)
  {
    OnlyConcat(qtype, [txt] + ports, rest);
    OnlyConcat(qtype, [txt], ports);
    OnlySingle(qtype, txt);
  }

  lemma {:induction false} TxtRecordsOfPairs(name: string, rs: seq<ContextVip>, ss: seq<ContextVip>)
    requires Pairs(rs) == Pairs(ss)
    ensures TxtRecords(name, rs) == TxtRecords(name, ss)
    decreases |rs|
  {
    assert |Pairs(rs)| == |rs| && |Pairs(ss)| == |ss|;
    if rs != [] {
      assert Pairs(rs)[0] == Pairs(ss)[0];
      assert Pairs(rs[1..]) == Pairs(rs)[1..] && Pairs(ss[1..]) == Pairs(ss)[1..];
      TxtRecordsOfPairs(name, rs[1..], ss[1..]);
    }
  }

  lemma ResponseA(p: Proxy, name: string, domain: string, w: World)
    requires Ready(p)
    ensures var (p', rs) := ResolveA(p, name, domain, w);
      Respond(p, [Question(name, TypeA)], domain, w)
      == (p', Message(if rs == [] then NameError else NoError, ARecords(name, rs), ExtraRecords(name, domain, rs)))
  {
    RespondOne(p, Question(name, TypeA), domain, w);
    var rs := ResolveA(p, name, domain, w).1;
    assert [] + ARecords(name, rs) == ARecords(name, rs) && [] + ExtraRecords(name, domain, rs) == ExtraRecords(name, domain, rs);
  }

  lemma ResponseLookups(p: Proxy, name: string, domain: string, w: World)
    requires Ready(p) && ServiceExists(p.a, name, domain, w)
    ensures Respond(p, [Question(name, TypeTXT)], domain, w).1 == Message(NoError, TxtRecords(name, TxtFor(p.a, name, domain, w)), [])
    ensures Respond(p, [Question(name, TypeSRV)], domain, w).1 == Message(NoError, SrvRecords(name, domain, SrvFor(p.a, name, domain, w)), [])
  {
    RespondOne(p, Question(name, TypeTXT), domain, w);
    RespondOne(p, Question(name, TypeSRV), domain, w);
    var txt, srv := TxtRecords(name, TxtFor(p.a, name, domain, w)), SrvRecords(name, domain, SrvFor(p.a, name, domain, w));
    assert [] + txt == txt && [] + srv == srv;
  }

  /** What an A response says in passing is what TXT and SRV queries answer next: when it answered
      anything and no listener failed to start, the TXT and SRV records of its additional section are
      their answers. */
  lemma ExtraForetellsLookups(p: Proxy, name: string, domain: string, w: World)
    requires Ready(p) && A.AllocInv(p.a) && Distinct(w.contexts)
    requires Respond(p, [Question(name, TypeA)], domain, w).1.rcode == NoError && !NameStartFails(p, name, domain, w)
    ensures var (p', a) := Respond(p, [Question(name, TypeA)], domain, w);
      && Respond(p', [Question(name, TypeTXT)], domain, w).1 == Message(NoError, Only(TypeTXT, a.extra), [])
      && Respond(p', [Question(name, TypeSRV)], domain, w).1 == Message(NoError, Only(TypeSRV, a.extra), [])
  {
    var (p', rs) := ResolveA(p, name, domain, w);
    ResponseA(p, name, domain, w);
    ExistsOnceAnswered(p, name, domain, w);
    ResponseLookups(p', name, domain, w);
    ExtraSplits(name, domain, rs);
    FoundAfterA(p, name, domain, w);
    SrvAfterA(p, name, domain, w);
    TxtRecordsOfPairs(name, rs, TxtFor(p'.a, name, domain, w));
  }

  /** A name that has just been answered exists. */
  lemma ExistsOnceAnswered(p: Proxy, name: string, domain: string, w: World)
    requires Ready(p) && A.AllocInv(p.a) && Distinct(w.contexts) && ResolveA(p, name, domain, w).1 != []
    ensures ServiceExists(ResolveA(p, name, domain, w).0.a, name, domain, w)
  {
    var h := ParseClusterHost(TrimSuffix(name, "."), domain).value;
    var (p', rs) := ResolveA(p, name, domain, w);
    var ctxs := ContextsOf(h, w);
    FoundAfterA(p, name, domain, w);
    var found := FoundIn(p'.a, BaseOf(h), ctxs);
    assert |Pairs(rs)| > 0;
    FoundIsHeld(p'.a, BaseOf(h), ctxs, 0);
    var i :| 0 <= i < |ctxs| && ctxs[i] == found[0].ctx;
    assert KnownIn(p'.a, BaseOf(h).(ctx := ctxs[i]), w);
  }

  // ---------------------------------------------------------------- the object

  class Server {
    const domain: string
    const allocator: A.VipAllocator
    const fm: F.Manager

    constructor (domain: string, allocator: A.VipAllocator, fm: F.Manager)
      ensures this.domain == domain && this.allocator == allocator && this.fm == fm
    {
      this.domain, this.allocator, this.fm := domain, allocator, fm;
    }

    ghost predicate Valid()
      reads allocator, fm
    {
      allocator.Valid() && fm.Valid()
    }

    ghost function View(): Proxy
      reads allocator, fm
    {
      Proxy(allocator.Model(), fm.View())
    }

    /** Starts the listeners of a fresh address, giving up at the first that fails. */
    method StartListeners(ctx: string, vip: Addr, ports: seq<int>, env: Env) returns (ok: bool)
      requires Valid()
      modifies fm
      ensures Valid() && fm.PoolView() == old(fm.PoolView())
      ensures (fm.View(), ok) == StartAll(old(fm.View()), OrCurrent(ctx, env.current), vip, ports, env.listen)
    {
      ghost var goal := StartAll(fm.View(), OrCurrent(ctx, env.current), vip, ports, env.listen);
      for i := 0 to |ports|
        invariant Valid() && fm.PoolView() == old(fm.PoolView())
        invariant StartAll(fm.View(), OrCurrent(ctx, env.current), vip, ports[i..], env.listen) == goal
      {
        assert ports[i..][0] == ports[i] && ports[i..][1..] == ports[i + 1..];
        ok := fm.StartForward(ctx, env.current, vip, ports[i], env.listen(vip, ports[i]));
        if !ok {
          return;
        }
      }
      ok := true;
    }

    /** The address of a service in one context. */
    method ResolveService(q: Query, env: Env) returns (r: Option<ContextVip>)
      requires Valid()
      modifies allocator, fm
      ensures Valid() && fm.PoolView() == old(fm.PoolView())
      ensures (View(), r) == ResolveForContext(old(View()), q, env)
    {
      var key := ServiceKey(q);
      var held := allocator.LookupVip(key);
      if held.Some? {
        fm.TouchVipLocked(held.value);
        var ports := [];
        if env.ports.Some? {
          ports := env.ports.value;
        }
        return Some(ContextVip(q.ctx, held.value, ports));
      }
      if env.ports.None? {
        return None;
      }
      var vip := allocator.AllocateVip(key, env.add);
      if vip.None? {
        return None;
      }
      var ok := StartListeners(q.ctx, vip.value, env.ports.value, env);
      if !ok {
        return None;
      }
      r := Some(ContextVip(q.ctx, vip.value, env.ports.value));
    }

    method ResolveContexts(base: Query, ctxs: seq<string>, w: World) returns (rs: seq<ContextVip>)
      requires Valid()
      modifies allocator, fm
      ensures Valid() && (View(), rs) == ResolveEach(old(View()), base, ctxs, w)
    {
      ghost var goal := ResolveEach(View(), base, ctxs, w);
      rs := [];
      ContinuesStart(View(), base, ctxs, w);
      for i := 0 to |ctxs|
        invariant Valid() && Continues(View(), base, ctxs[i..], w, rs, goal)
      {
        ContinuesStep(View(), base, ctxs, i, w, rs, goal);
        var q := base.(ctx := ctxs[i]);
        var r := ResolveService(q, EnvOf(w, q));
        rs := rs + (if r.Some? then [r.value] else []);
      }
      ContinuesEnd(View(), base, ctxs, w, rs, goal);
    }

    method ResolveName(name: string, w: World) returns (rs: seq<ContextVip>)
      requires Valid()
      modifies allocator, fm
      ensures Valid() && (View(), rs) == ResolveA(old(View()), name, domain, w)
    {
      var parsed := ParseClusterHost(TrimSuffix(name, "."), domain);
      if parsed.None? {
        return [];
      }
      var h := parsed.value;
      var ctxs := if h.ctx != "" then [h.ctx] else w.contexts;
      rs := ResolveContexts(BaseOf(h), ctxs, w);
    }

    /** The existence check: stops at the first context that resolves the service. */
    method Resolvable(base: Query, ctxs: seq<string>, w: World) returns (found: bool)
      ensures found == exists i :: 0 <= i < |ctxs| && w.resolve(base.(ctx := ctxs[i])).Some?
    {
      for i := 0 to |ctxs|
        invariant forall j :: 0 <= j < i ==> w.resolve(base.(ctx := ctxs[j])).None?
      {
        if w.resolve(base.(ctx := ctxs[i])).Some? {
          return true;
        }
      }
      return false;
    }

    /** First pass of a TXT lookup: the addresses already held. */
    method HeldTxt(base: Query, ctxs: seq<string>) returns (vips: seq<ContextVip>)
      requires Valid()
      ensures vips == WithoutPorts(FoundIn(allocator.Model(), base, ctxs))
    {
      vips := [];
      ghost var found := FoundIn(allocator.Model(), base, ctxs);
      for i := 0 to |ctxs|
        invariant Pairs(vips) + FoundIn(allocator.Model(), base, ctxs[i..]) == found
        invariant forall j :: 0 <= j < |vips| ==> vips[j].ports == []
      {
        FoundStep(allocator.Model(), base, ctxs, i);
        var ip := allocator.LookupVip(ServiceKey(base.(ctx := ctxs[i])));
        if ip.Some? {
          var r := ContextVip(ctxs[i], ip.value, []);
          PairsSnoc(vips, r, FoundIn(allocator.Model(), base, ctxs[i + 1..]));
          vips := vips + [r];
        }
      }
      SameWithoutPorts(vips, found);
    }

    method LookupTxt(name: string, w: World) returns (vips: seq<ContextVip>, serviceExists: bool)
      requires Valid()
      ensures vips == TxtFor(allocator.Model(), name, domain, w)
      ensures serviceExists == ServiceExists(allocator.Model(), name, domain, w)
    {
      vips, serviceExists := [], false;
      var parsed := ParseClusterHost(TrimSuffix(name, "."), domain);
      if parsed.None? {
        return;
      }
      var base, ctxs := BaseOf(parsed.value), ContextsOf(parsed.value, w);
      vips := HeldTxt(base, ctxs);
      serviceExists := |vips| > 0;
      if !serviceExists {
        serviceExists := Resolvable(base, ctxs, w);
      }
      ExistsByPasses(allocator.Model(), base, ctxs, w);
    }

    /** First pass of an SRV lookup: the addresses already held, with the ports reported now. */
    method HeldSrv(base: Query, ctxs: seq<string>, w: World) returns (vips: seq<ContextVip>)
      requires Valid()
      ensures vips == WithPorts(FoundIn(allocator.Model(), base, ctxs), base, w)
    {
      vips := [];
      ghost var found := FoundIn(allocator.Model(), base, ctxs);
      for i := 0 to |ctxs|
        invariant Pairs(vips) + FoundIn(allocator.Model(), base, ctxs[i..]) == found
        invariant PortsCurrent(vips, base, w)
      {
        FoundStep(allocator.Model(), base, ctxs, i);
        var q := base.(ctx := ctxs[i]);
        var ip := allocator.LookupVip(ServiceKey(q));
        if ip.Some? {
          var ports := [];
          if w.resolve(q).Some? {
            ports := w.resolve(q).value;
          }
          var r := ContextVip(ctxs[i], ip.value, ports);
          PairsSnoc(vips, r, FoundIn(allocator.Model(), base, ctxs[i + 1..]));
          vips := vips + [r];
        }
      }
      SamePairsSamePorts(vips, found, base, w);
    }

    method LookupSrv(name: string, w: World) returns (vips: seq<ContextVip>, serviceExists: bool)
      requires Valid()
      ensures vips == SrvFor(allocator.Model(), name, domain, w)
      ensures serviceExists == ServiceExists(allocator.Model(), name, domain, w)
    {
      vips, serviceExists := [], false;
      var parsed := ParseClusterHost(TrimSuffix(name, "."), domain);
      if parsed.None? {
        return;
      }
      var base, ctxs := BaseOf(parsed.value), ContextsOf(parsed.value, w);
      vips := HeldSrv(base, ctxs, w);
      serviceExists := |vips| > 0;
      if !serviceExists {
        serviceExists := Resolvable(base, ctxs, w);
      }
      ExistsByPasses(allocator.Model(), base, ctxs, w);
    }

    /** The SRV records of one address, appended to a section. */
    method AppendPorts(section: seq<Record>, name: string, target: string, ports: seq<int>) returns (r: seq<Record>)
      ensures r == section + PortRecords(name, target, ports)
    {
      r := section;
      for i := 0 to |ports|
        invariant r + PortRecords(name, target, ports[i..]) == section + PortRecords(name, target, ports)
      {
        assert ports[i..][0] == ports[i] && ports[i..][1..] == ports[i + 1..];
        if ports[i] == 0 {
          continue;
        }
        r := r + [SrvRecord(name, ports[i] % 0x1_0000, target)];
      }
    }

    /** The answers and the additional records of an A question. */
    method AppendA(msg: Message, name: string, rs: seq<ContextVip>) returns (r: Message)
      ensures r == msg.(answer := msg.answer + ARecords(name, rs), extra := msg.extra + ExtraRecords(name, domain, rs))
    {
      var answer, extra := msg.answer, msg.extra;
      for i := 0 to |rs|
        invariant answer + ARecords(name, rs[i..]) == msg.answer + ARecords(name, rs)
        invariant extra + ExtraRecords(name, domain, rs[i..]) == msg.extra + ExtraRecords(name, domain, rs)
      {
        assert rs[i..][0] == rs[i] && rs[i..][1..] == rs[i + 1..];
        answer := answer + [ARecord(name, rs[i].vip)];
        extra := extra + [TxtRecord(name, rs[i].vip, rs[i].ctx)];
        extra := AppendPorts(extra, name, ContextFQDN(name, rs[i].ctx, domain), rs[i].ports);
      }
      r := msg.(answer := answer, extra := extra);
    }

    method AppendTxt(section: seq<Record>, name: string, rs: seq<ContextVip>) returns (r: seq<Record>)
      ensures r == section + TxtRecords(name, rs)
    {
      r := section;
      for i := 0 to |rs|
        invariant r + TxtRecords(name, rs[i..]) == section + TxtRecords(name, rs)
      {
        assert rs[i..][0] == rs[i] && rs[i..][1..] == rs[i + 1..];
        r := r + [TxtRecord(name, rs[i].vip, rs[i].ctx)];
      }
    }

    method AppendSrv(section: seq<Record>, name: string, rs: seq<ContextVip>) returns (r: seq<Record>)
      ensures r == section + SrvRecords(name, domain, rs)
    {
      r := section;
      for i := 0 to |rs|
        invariant r + SrvRecords(name, domain, rs[i..]) == section + SrvRecords(name, domain, rs)
      {
        assert rs[i..][0] == rs[i] && rs[i..][1..] == rs[i + 1..];
        r := AppendPorts(r, name, ContextFQDN(name, rs[i].ctx, domain), rs[i].ports);
      }
    }

    /** One question of a message; the flag and the count are those of A questions and answers. */
    method AnswerQuestion(msg: Message, hadA: bool, count: nat, q: Question, w: World) returns (msg': Message, hadA': bool, count': nat)
      requires Valid()
      modifies allocator, fm
      ensures Valid()
      ensures Progress(View(), msg', hadA', count') == Answer(Progress(old(View()), msg, hadA, count), q, domain, w)
    {
      msg', hadA', count' := msg, hadA, count;
      if q.qtype == TypeA {
        hadA' := true;
        var rs := ResolveName(q.name, w);
        count' := count + |rs|;
        msg' := AppendA(msg, q.name, rs);
      } else if q.qtype == TypeTXT {
        var vips, serviceExists := LookupTxt(q.name, w);
        if !serviceExists {
          msg' := msg.(rcode := NameError);
        } else {
          var answer := AppendTxt(msg.answer, q.name, vips);
          msg' := msg.(answer := answer);
        }
      } else if q.qtype == TypeSRV {
        var vips, serviceExists := LookupSrv(q.name, w);
        if !serviceExists {
          msg' := msg.(rcode := NameError);
        } else {
          var answer := AppendSrv(msg.answer, q.name, vips);
          msg' := msg.(answer := answer);
        }
      }
    }

    method HandleCluster(qs: seq<Question>, w: World) returns (msg: Message)
      requires Valid()
      modifies allocator, fm
      ensures Valid() && (View(), msg) == Respond(old(View()), qs, domain, w)
    {
      msg := Message(NoError, [], []);
      var hadA, count: nat := false, 0;
      ghost var goal := AnswerAll(Progress(View(), msg, hadA, count), qs, domain, w);
      assert qs[0..] == qs;
      for i := 0 to |qs|
        invariant Valid() && Completes(Progress(View(), msg, hadA, count), qs[i..], domain, w, goal)
      {
        CompletesStep(Progress(View(), msg, hadA, count), qs, i, domain, w, goal);
        msg, hadA, count := AnswerQuestion(msg, hadA, count, qs[i], w);
      }
      if hadA && count == 0 {
        msg := msg.(rcode := NameError);
      }
    }
  }

  /** Resolving the remaining contexts completes `rs` to the goal. */
  ghost predicate Continues(p: Proxy, base: Query, ctxs: seq<string>, w: World, rs: seq<ContextVip>, goal: (Proxy, seq<ContextVip>)) {
    Ready(p) && ResolveEach(p, base, ctxs, w).0 == goal.0 && rs + ResolveEach(p, base, ctxs, w).1 == goal.1
  }

  lemma ContinuesStart(p: Proxy, base: Query, ctxs: seq<string>, w: World)
    requires Ready(p)
    ensures Continues(p, base, ctxs[0..], w, [], ResolveEach(p, base, ctxs, w))
  {
    assert ctxs[0..] == ctxs;
  }

  lemma ContinuesStep(p: Proxy, base: Query, ctxs: seq<string>, i: nat, w: World, rs: seq<ContextVip>, goal: (Proxy, seq<ContextVip>))
    requires i < |ctxs| && Continues(p, base, ctxs[i..], w, rs, goal)
    ensures var q := base.(ctx := ctxs[i]); var (p1, r) := ResolveForContext(p, q, EnvOf(w, q));
      Continues(p1, base, ctxs[i + 1..], w, rs + (if r.Some? then [r.value] else []), goal)
  {
    var rest := ctxs[i..];
    assert rest[0] == ctxs[i] && rest[1..] == ctxs[i + 1..];
    var q := base.(ctx := ctxs[i]);
    var (p1, r) := ResolveForContext(p, q, EnvOf(w, q));
    Associative(rs, if r.Some? then [r.value] else [], ResolveEach(p1, base, rest[1..], w).1);
  }

  lemma ContinuesEnd(p: Proxy, base: Query, ctxs: seq<string>, w: World, rs: seq<ContextVip>, goal: (Proxy, seq<ContextVip>))
    requires Continues(p, base, ctxs[|ctxs|..], w, rs, goal)
    ensures (p, rs) == goal
  {
    assert rs + [] == rs;
  }

  /** Answering the remaining questions completes the response to the goal. */
  ghost predicate Completes(s: Progress, qs: seq<Question>, domain: string, w: World, goal: Progress) {
    Ready(s.p) && AnswerAll(s, qs, domain, w) == goal
  }

  lemma CompletesStep(s: Progress, qs: seq<Question>, i: nat, domain: string, w: World, goal: Progress)
    requires i < |qs| && Completes(s, qs[i..], domain, w, goal)
    ensures Completes(Answer(s, qs[i], domain, w), qs[i + 1..], domain, w, goal)
  {
    var rest := qs[i..];
    assert rest[0] == qs[i] && rest[1..] == qs[i + 1..];
  }

  lemma Associative<T>(x: seq<T>, y: seq<T>, z: seq<T>)
    ensures x + (y + z) == (x + y) + z
  {
  }

  lemma FoundStep(a: A.Alloc, base: Query, ctxs: seq<string>, i: nat)
    requires i < |ctxs|
    ensures var ip := A.Lookup(a, ServiceKey(base.(ctx := ctxs[i])));
      FoundIn(a, base, ctxs[i..]) == (if ip.Some? then [Held(ctxs[i], ip.value)] else []) + FoundIn(a, base, ctxs[i + 1..])
  {
    assert ctxs[i..][0] == ctxs[i] && ctxs[i..][1..] == ctxs[i + 1..];
  }

  lemma PairsSnoc(rs: seq<ContextVip>, r: ContextVip, rest: seq<Held>)
    ensures Pairs(rs + [r]) + rest == Pairs(rs) + ([HeldOf(r)] + rest)
  {
  }

  lemma SameWithoutPorts(rs: seq<ContextVip>, hs: seq<Held>)
    requires Pairs(rs) == hs && forall i :: 0 <= i < |rs| ==> rs[i].ports == []
    ensures rs == WithoutPorts(hs)
  {
    var ss := WithoutPorts(hs);
    forall i | 0 <= i < |rs| ensures rs[i] == ss[i] {
      assert Pairs(rs)[i] == Pairs(ss)[i];
    }
  }

  /** The two passes of a lookup: an address is held, or some context resolves. */
  lemma ExistsByPasses(a: A.Alloc, base: Query, ctxs: seq<string>, w: World)
    ensures ExistsIn(a, base, ctxs, w) <==>
      FoundIn(a, base, ctxs) != [] || exists i :: 0 <= i < |ctxs| && w.resolve(base.(ctx := ctxs[i])).Some?
  {
    if FoundIn(a, base, ctxs) != [] {
      FoundIsHeld(a, base, ctxs, 0);
      var i :| 0 <= i < |ctxs| && ctxs[i] == FoundIn(a, base, ctxs)[0].ctx;
      assert KnownIn(a, base.(ctx := ctxs[i]), w);
    }
    forall i | 0 <= i < |ctxs| && ServiceKey(base.(ctx := ctxs[i])) in a.byKey ensures FoundIn(a, base, ctxs) != [] {
      FoundNonempty(a, base, ctxs, i);
    }
    forall i | 0 <= i < |ctxs| && w.resolve(base.(ctx := ctxs[i])).Some? ensures ExistsIn(a, base, ctxs, w) {
      assert KnownIn(a, base.(ctx := ctxs[i]), w);
    }
  }

  lemma {:induction false} FoundNonempty(a: A.Alloc, base: Query, ctxs: seq<string>, i: nat)
    requires i < |ctxs| && ServiceKey(base.(ctx := ctxs[i])) in a.byKey
    ensures FoundIn(a, base, ctxs) != []
    decreases i
  {
    if i > 0 {
      FoundNonempty(a, base, ctxs[1..], i - 1);
    }
  }
}
