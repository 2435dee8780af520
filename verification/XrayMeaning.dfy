/** What Xray does with the rendered routing, against what the plan says. */
module XrayMeaning {
  import opened Text
  import opened Plans
  import opened GroupGraph
  import opened PlanCheck
  import opened Routing
  import opened Xray

  // ---- how Xray reads a condition ----

  function ReadDomain(t: string): Atom
  {
    if HasPrefix(t, "full:") then DomainIs(t[5..])
    else if HasPrefix(t, "domain:") then DomainUnder(t[7..])
    else if HasPrefix(t, "geosite:") then InCategory(t[8..])
    else if HasPrefix(t, "keyword:") then DomainHas(t[8..])
    else DomainHas(t)
  }

  function ReadIp(t: string): Atom
  {
    if HasPrefix(t, "geoip:") then (if t[6..] == "private" then PrivateAddress else InCountry(t[6..])) else InCidr(t)
  }

  /** Whether a condition holds; `dns` marks a port-53 connection from the TUN device. */
  predicate Holds(m: Match, c: Conn, dns: bool)
  {
    match m
    case TunDns => dns
    case Anything => true
    case DomainText(t) => c(ReadDomain(t))
    case IpText(t) => c(ReadIp(t))
    case PortText(t) => c(ToPort(Atoi(t)))
    case SourcePortText(t) => c(FromPort(Atoi(t)))
    case ProcessText(t) => c(ByProcess(t))
    case NetworkText(t) => c(OverNetwork(t))
  }

  function LineHits(lines: seq<Line>, c: Conn, dns: bool): (h: seq<bool>)
    ensures |h| == |lines|
  {
    seq(|lines|, i requires 0 <= i < |lines| => Holds(lines[i].when, c, dns))
  }

  lemma DomainReads(v: string)
    ensures ReadDomain("full:" + v) == DomainIs(v)
    ensures ReadDomain("domain:" + v) == DomainUnder(v)
    ensures ReadDomain("keyword:" + v) == DomainHas(v)
    ensures ReadDomain("geosite:" + v) == InCategory(v)
  {
    assert ("full:" + v)[5..] == v;
    assert ("domain:" + v)[0] == 'd' && ("domain:" + v)[7..] == v;
    assert ("keyword:" + v)[0] == 'k' && ("keyword:" + v)[8..] == v;
    assert ("geosite:" + v)[0] == 'g' && ("geosite:" + v)[8..] == v;
  }

  lemma CountryReads(code: string)
    ensures ReadIp("geoip:" + code) == if code == "private" then PrivateAddress else InCountry(code)
  {
    assert ("geoip:" + code)[6..] == code;
  }

  lemma RangeReads(v: string)
    requires CidrText(v)
    ensures ReadIp(v) == InCidr(v)
  {
    assert |v| > 0 ==> v[0] != "geoip:"[0];
  }

  lemma MatchKeepsMeaning(r: Rule, c: Conn, dns: bool)
    requires MatchOf(r).Some? && (r.kind == IpCidr ==> CidrText(r.value))
    ensures r.kind != MatchAll && r.kind != OtherRule && (Holds(MatchOf(r).value, c, dns) <==> c(Means(r)))
  {
    hide ReadDomain, ReadIp, Lower, Atoi, CidrText;
    match r.kind
    case IpCidr => RangeReads(r.value);
    case GeoIp => CountryReads(if Lower(r.value) == "lan" then "private" else Lower(r.value));
    case GeoSite => DomainReads(Lower(r.value));
    case _ => DomainReads(r.value);
  }

  /**
   * For every connection that is not hijacked DNS, Xray's first matching line is the line of the
   * plan rule that fires, or the closing direct line when none does.
   */
  lemma SameRuleFires(x: Context, p: Plan, order: seq<string>, lines: seq<Line>, c: Conn)
    requires Routes(x, p, order, lines) && GoodRanges(p.rules)
    ensures var n, at := Fired(p.rules, c), First(LineHits(lines, c, false));
            && at == |Opening(p.tun)| + n && at < |lines|
            && (n < |p.rules| ==> CarriedAs(x, order, p.rules[n], lines[at]))
            && (n == |p.rules| ==> lines[at].to == OutboundTag(TAG_DIRECT))
  {
    hide Resolve, MatchOf, First, FirstAll, Means;
    var n, hits, skip := Fired(p.rules, c), LineHits(lines, c, false), |Opening(p.tun)|;
    CatchAllEndsTheList(p.rules, c);
    forall i | 0 <= i < skip ensures !hits[i] { assert lines[i] == Opening(p.tun)[i]; }
    forall i | 0 <= i <= FirstAll(p.rules) && i < |p.rules| ensures hits[skip + i] <==> Fires(p.rules[i], c) {
      LineFires(x, order, p.rules[i], lines[skip + i], c);
    }
    assert forall i :: 0 <= i < n ==> !Hits(p.rules, c)[i];
    assert hits[skip + n];
    forall i | skip <= i < skip + n ensures !hits[i] {
      var k := i - skip;
      assert !Hits(p.rules, c)[k];
      assert hits[skip + k] <==> Fires(p.rules[k], c);
    }
  }

  lemma LineFires(x: Context, order: seq<string>, r: Rule, line: Line, c: Conn)
    requires CarriedAs(x, order, r, line) && (r.kind == IpCidr ==> CidrText(r.value))
    ensures Holds(line.when, c, false) <==> Fires(r, c)
  {
    hide Resolve, MatchOf;
    if r.kind != MatchAll { MatchKeepsMeaning(r, c, false); }
  }

  // ---- tags and balancers ----

  lemma {:induction false} LeadingZeros(k: nat, s: string, n: nat)
    requires Digits(s) == Some(n)
    ensures Digits(Zeros(k) + s) == Some(n)
  {
    if |s| == 1 {
      assert (Zeros(k) + s)[..|Zeros(k) + s| - 1] == Zeros(k);
      if k > 0 { OnlyZeros(k); }
    } else {
      var front := s[..|s| - 1];
      assert (Zeros(k) + s)[..|Zeros(k) + s| - 1] == Zeros(k) + front;
      LeadingZeros(k, front, Digits(front).value);
    }
  }

  lemma {:induction false} OnlyZeros(k: nat)
    requires k > 0
    ensures Digits(Zeros(k)) == Some(0)
  {
    assert Zeros(k)[..k - 1] == Zeros(k - 1);
    if k > 1 { OnlyZeros(k - 1); }
  }

  lemma TagReadsBack(i: nat)
    ensures Digits(TagOf(i)[1..]) == Some(i + 1)
  {
    var digits := Itoa(i + 1);
    ItoaReadsBack(i + 1);
    if |digits| < 4 {
      LeadingZeros(4 - |digits|, digits, i + 1);
      assert TagOf(i)[1..] == Zeros(4 - |digits|) + digits;
    } else {
      assert TagOf(i)[1..] == digits;
    }
  }

  lemma ShortNumber(n: nat)
    requires n <= 9999
    ensures |Itoa(n)| <= 4
  {
    assert n / 10 <= 999 && n / 10 / 10 <= 99 && n / 10 / 10 / 10 <= 9;
    assert n >= 10 ==> |Itoa(n)| == |Itoa(n / 10)| + 1;
    assert n / 10 >= 10 ==> |Itoa(n / 10)| == |Itoa(n / 10 / 10)| + 1;
    assert n / 10 / 10 >= 10 ==> |Itoa(n / 10 / 10)| == |Itoa(n / 10 / 10 / 10)| + 1;
  }

  /** No tag of this many outbounds is a prefix of another. */
  ghost predicate PrefixFree(count: nat)
  {
    forall i, j :: 0 <= i < count && 0 <= j < count && TagOf(i) <= TagOf(j) ==> i == j
  }

  /** Four digits keep balancer prefixes apart up to 9999 outbounds and no further. */
  lemma TagsDoNotOverlap(count: nat)
    ensures PrefixFree(count) <==> count <= 9999
  {
    if count <= 9999 {
      forall i, j | 0 <= i < count && 0 <= j < count && TagOf(i) <= TagOf(j) ensures i == j {
        PrefixIsSame(i, j);
      }
    } else {
      assert Itoa(1000) == "1000" && Itoa(10000) == "10000";
      assert TagOf(999) == "o1000" && TagOf(9999) == "o10000";
      assert TagOf(999) <= TagOf(9999);
    }
  }

  lemma PrefixIsSame(i: nat, j: nat)
    requires i < 9999 && j < 9999 && TagOf(i) <= TagOf(j)
    ensures i == j
  {
    ShortNumber(i + 1);
    ShortNumber(j + 1);
    assert |TagOf(i)| == 5 && |TagOf(j)| == 5;
    assert TagOf(i) == TagOf(j);
    TagReadsBack(i);
    TagReadsBack(j);
  }

  /** Where a connection leaves: a fixed exit, or one of some servers. */
  datatype Exit = ToDirect | ToReject | ToDns | ToServers(ids: set<string>)

  ghost predicate SelectedBy(balancers: seq<Balancer>, name: string, tag: string)
  {
    exists k, s :: 0 <= k < |balancers| && balancers[k].tag == name && s in balancers[k].selector && s <= tag
  }

  /** Xray's side: a tag names one outbound, a balancer every outbound its prefixes select. */
  ghost function ExitOf(p: Plan, balancers: seq<Balancer>, t: Target): Exit
  {
    match t
    case OutboundTag(tag) =>
      if tag == TAG_DIRECT then ToDirect
      else if tag == TAG_BLOCK then ToReject
      else if tag == TAG_DNS then ToDns
      else ToServers(set i | 0 <= i < |p.outbounds| && TagOf(i) == tag :: p.outbounds[i].id)
    case BalancerTag(name) =>
      ToServers(set i | 0 <= i < |p.outbounds| && SelectedBy(balancers, name, TagOf(i)) :: p.outbounds[i].id)
  }

  lemma {:induction false} TagsNameOutbounds(outbounds: seq<Outbound>)
    requires DistinctIds(outbounds)
    ensures forall id :: id in TagsOf(outbounds) <==> id in Ids(outbounds)
    ensures forall i :: 0 <= i < |outbounds| ==> outbounds[i].id in TagsOf(outbounds) && TagsOf(outbounds)[outbounds[i].id] == TagOf(i)
  {
    hide TagOf;
    if outbounds != [] {
      var front := outbounds[..|outbounds| - 1];
      TagsNameOutbounds(front);
      assert outbounds == front + [outbounds[|outbounds| - 1]];
    }
  }

  lemma {:induction false} SelectorHas(tags: map<string, string>, members: seq<string>, tag: string)
    ensures tag in Selector(tags, members) <==> exists m :: m in members && m in tags && tags[m] == tag
  {
    if members != [] {
      var front := members[..|members| - 1];
      SelectorHas(tags, front, tag);
      assert members == front + [members[|members| - 1]];
    }
  }

  lemma FixedTagsApart(i: nat)
    ensures TagOf(i)[0] == 'o'
    ensures TagOf(i) != TAG_DIRECT && TagOf(i) != TAG_BLOCK && TagOf(i) != TAG_DNS
  {
  }

  /** A tag leads to its own outbound alone. */
  lemma ServerExit(p: Plan, balancers: seq<Balancer>, i: nat)
    requires WellFormed(p) && i < |p.outbounds|
    ensures ExitOf(p, balancers, OutboundTag(TagOf(i))) == ToServers({p.outbounds[i].id})
  {
    hide Acyclic, GraphOf, TagOf;
    FixedTagsApart(i);
    TagsDoNotOverlap(|p.outbounds|);
    assert PrefixFree(|p.outbounds|);
    assert forall j :: 0 <= j < |p.outbounds| && TagOf(j) == TagOf(i) ==> TagOf(j) <= TagOf(i) && j == i;
  }

  /** A balancer chooses among exactly the servers that are direct members of its group. */
  lemma BalancerExit(p: Plan, x: Context, order: seq<string>, byGroup: map<string, string>, balancers: seq<Balancer>, g: Group)
    requires WellFormed(p) && x.tags == TagsOf(p.outbounds)
    requires Balanced(x, order, byGroup, balancers) && g.name in order && x.groups[g.name] == g
    ensures ExitOf(p, balancers, BalancerTag(BalancerName(IndexOf(order, g.name))))
         == ToServers(set m | m in g.members && m in Ids(p.outbounds))
  {
    hide Acyclic, GraphOf, TagOf, BalancerName, Selector, TagsOf;
    var k := IndexOf(order, g.name);
    var name := BalancerName(k);
    TagsNameOutbounds(p.outbounds);
    TagsDoNotOverlap(|p.outbounds|);
    forall i | 0 <= i < |p.outbounds|
      ensures SelectedBy(balancers, name, TagOf(i)) <==> p.outbounds[i].id in g.members
    {
      SelectsMember(p, x, order, byGroup, balancers, g, i);
    }
    forall m | m in Ids(p.outbounds) ensures exists i :: 0 <= i < |p.outbounds| && p.outbounds[i].id == m {
      IdSeen(p.outbounds, m);
    }
  }

  lemma SelectsMember(p: Plan, x: Context, order: seq<string>, byGroup: map<string, string>, balancers: seq<Balancer>, g: Group, i: nat)
    requires DistinctIds(p.outbounds) && PrefixFree(|p.outbounds|) && x.tags == TagsOf(p.outbounds)
    requires Balanced(x, order, byGroup, balancers) && g.name in order && x.groups[g.name] == g
    requires i < |p.outbounds|
    ensures SelectedBy(balancers, BalancerName(IndexOf(order, g.name)), TagOf(i)) <==> p.outbounds[i].id in g.members
  {
    hide TagOf, Selector, TagsOf, Balanced;
    var k := IndexOf(order, g.name);
    TagsNameOutbounds(p.outbounds);
    BalancerAt(x, order, byGroup, balancers, k);
    SelectorHas(x.tags, g.members, TagOf(i));
    if SelectedBy(balancers, BalancerName(k), TagOf(i)) {
      var j, s :| 0 <= j < |balancers| && balancers[j].tag == BalancerName(k) && s in balancers[j].selector && s <= TagOf(i);
      BalancerAt(x, order, byGroup, balancers, j);
      BalancerNamesDiffer(j, k);
      SelectorHas(x.tags, g.members, s);
      var m :| m in g.members && m in x.tags && x.tags[m] == s;
      IdSeen(p.outbounds, m);
      var o :| 0 <= o < |p.outbounds| && p.outbounds[o].id == m;
      assert TagOf(o) <= TagOf(i) && o == i;
    }
    if p.outbounds[i].id in g.members {
      assert balancers[k].tag == BalancerName(k) && TagOf(i) in balancers[k].selector;
    }
  }

  lemma BalancerAt(x: Context, order: seq<string>, byGroup: map<string, string>, balancers: seq<Balancer>, k: nat)
    requires Balanced(x, order, byGroup, balancers) && (k < |order| || k < |balancers|)
    ensures |order| == |balancers| && order[k] in x.groups
    ensures balancers[k].tag == BalancerName(k) && balancers[k].selector == Selector(x.tags, x.groups[order[k]].members)
  {
    hide BalancerName, Selector;
  }

  lemma BalancerNamesDiffer(j: nat, k: nat)
    requires BalancerName(j) == BalancerName(k)
    ensures j == k
  {
    PrefixCancels("b-", Itoa(j + 1), Itoa(k + 1));
    ItoaInjective(j + 1, k + 1);
  }

  /** A balancer has nothing to choose from exactly when no member is a server. */
  lemma BalancerIsEmptyWithoutServers(p: Plan, x: Context, order: seq<string>, byGroup: map<string, string>, balancers: seq<Balancer>, g: Group)
    requires WellFormed(p) && x.tags == TagsOf(p.outbounds)
    requires Balanced(x, order, byGroup, balancers) && g.name in order && x.groups[g.name] == g
    ensures ExitOf(p, balancers, BalancerTag(BalancerName(IndexOf(order, g.name)))) == ToServers({})
       <==> forall m :: m in g.members ==> m !in Ids(p.outbounds)
  {
    hide Acyclic, GraphOf, Balanced, ExitOf, BalancerName;
    BalancerExit(p, x, order, byGroup, balancers, g);
    var chosen := set m | m in g.members && m in Ids(p.outbounds);
    assert forall m :: m in chosen <==> m in g.members && m in Ids(p.outbounds);
  }

  // ---- targets ----

  ghost predicate MemberStep(groups: map<string, Group>, a: string, b: string)
  {
    a in groups && b in groups[a].members
  }

  ghost predicate Chain(groups: map<string, Group>, q: seq<string>)
  {
    |q| > 0 && forall i :: 0 <= i < |q| - 1 ==> MemberStep(groups, q[i], q[i + 1])
  }

  /** The target itself, a member of it, a member of a member, and so on. */
  ghost predicate Within(groups: map<string, Group>, target: string, id: string)
  {
    exists q :: Chain(groups, q) && q[0] == target && q[|q| - 1] == id
  }

  lemma WithinSelf(groups: map<string, Group>, id: string)
    ensures Within(groups, id, id)
  {
    assert Chain(groups, [id]);
  }

  lemma WithinMember(groups: map<string, Group>, target: string, member: string, id: string)
    requires MemberStep(groups, target, member) && Within(groups, member, id)
    ensures Within(groups, target, id)
  {
    var q :| Chain(groups, q) && q[0] == member && q[|q| - 1] == id;
    var longer := [target] + q;
    assert forall i :: 0 < i < |longer| - 1 ==> longer[i] == q[i - 1] && longer[i + 1] == q[i];
    assert Chain(groups, longer);
  }

  /** A fixed tag belongs to a built-in target or to a server. */
  ghost predicate TagNames(x: Context, tag: string, id: string)
  {
    || (tag == TAG_DIRECT && id == "direct")
    || (tag == TAG_BLOCK && id == "reject")
    || (tag == TAG_DNS && id == "dns")
    || (id in x.tags && x.tags[id] == tag)
  }

  /** Resolution ends at a member of the target, however deep. */
  lemma {:induction false} ResolvesWithin(x: Context, id: string, depth: nat)
    ensures var r := Resolve(x, id, depth);
            && (r.Fixed? ==> exists m :: TagNames(x, r.tag, m) && Within(x.groups, id, m))
            && (r.Auto? ==> exists n :: n in x.groups && x.groups[n] == r.group && Within(x.groups, id, n))
            && (r == Failed(UnknownTarget) ==> exists m :: m !in x.tags && m !in x.groups
                                                            && m != "direct" && m != "reject" && m != "dns"
                                                            && Within(x.groups, id, m))
    decreases if depth > |x.groups| then 0 else |x.groups| + 1 - depth
  {
    hide Within;
    WithinSelf(x.groups, id);
    var r := Resolve(x, id, depth);
    if r.Fixed? && (id == "direct" || id == "reject" || id == "dns" || id in x.tags) {
      assert TagNames(x, r.tag, id);
    } else if id in x.groups && depth <= |x.groups| && x.groups[id].members != [] && x.groups[id].kind == Select
              && id !in x.tags && id != "direct" && id != "reject" && id != "dns" {
      var m := Pick(x, x.groups[id]);
      assert MemberStep(x.groups, id, m);
      ResolvesWithin(x, m, depth + 1);
      forall k | Within(x.groups, m, k) ensures Within(x.groups, id, k) { WithinMember(x.groups, id, m, k); }
    }
  }

  /** On a validated plan the recursion never reaches its depth guard, nor an empty group. */
  lemma {:induction false} NoCycleError(p: Plan, x: Context, id: string, depth: nat, walk: seq<string>)
    requires WellFormed(p) && x == ContextOf(p, x.sel)
    requires id in x.groups ==> Walk(GraphOf(p.groups), walk) && Last(walk, id) && |walk| == depth + 1 && walk[0] in GraphOf(p.groups)
    ensures Resolve(x, id, depth) != Failed(PartOfCycle) && Resolve(x, id, depth) != Failed(NoMembers)
    decreases if depth > |x.groups| then 0 else |x.groups| + 1 - depth
  {
    hide Acyclic, TagsOf, ByName, Walk;
    var g := GraphOf(p.groups);
    ByNameFinds(p.groups);
    assert g.Keys == x.groups.Keys;
    SameSize(g, x.groups);
    if id in x.groups {
      WalksAreShort(g, walk);
      var group := x.groups[id];
      assert group in p.groups && GoodGroup(p, group);
      var m := Pick(x, group);
      if m in x.groups {
        assert Edge(g, id, m);
        ExtendWalk(g, walk, m);
      }
      NoCycleError(p, x, m, depth + 1, walk + [m]);
    }
  }

  lemma ExtendWalk(g: Graph, walk: seq<string>, m: string)
    requires Walk(g, walk) && Edge(g, walk[|walk| - 1], m)
    ensures Walk(g, walk + [m])
  {
  }

  lemma SameSize(g: Graph, groups: map<string, Group>)
    requires g.Keys == groups.Keys
    ensures |g| == |groups|
  {
    assert |g| == |g.Keys| && |groups| == |groups.Keys|;
  }

  /** Every target of a validated plan resolves, unless it leads to `pass` or to a group type Xray lacks. */
  lemma ValidatedTargetsResolve(p: Plan, sel: map<string, string>, id: string)
    requires WellFormed(p) && Known(p, id)
    ensures var x := ContextOf(p, sel);
            match Resolve(x, id, 0)
            case Failed(why) => why == UnsupportedGroup || (why == UnknownTarget && Within(x.groups, id, "pass"))
            case _ => true
  {
    hide Acyclic, Resolve, Within, Walk;
    var x := ContextOf(p, sel);
    ByNameFinds(p.groups);
    TagsNameOutbounds(p.outbounds);
    SingleWalk(GraphOf(p.groups), id);
    NoCycleError(p, x, id, 0, [id]);
    ResolvesWithin(x, id, 0);
    OtherFailures(x, id, 0);
    if Resolve(x, id, 0) == Failed(UnknownTarget) {
      var m :| m !in x.tags && m !in x.groups && m != "direct" && m != "reject" && m != "dns" && Within(x.groups, id, m);
      WithinKnown(p, x.groups, id, m);
    }
  }

  lemma {:induction false} OtherFailures(x: Context, id: string, depth: nat)
    ensures Resolve(x, id, depth) != Failed(UnsupportedRule)
    decreases if depth > |x.groups| then 0 else |x.groups| + 1 - depth
  {
    if id in x.groups && depth <= |x.groups| && x.groups[id].members != [] {
      OtherFailures(x, Pick(x, x.groups[id]), depth + 1);
    }
  }

  lemma SingleWalk(g: Graph, id: string)
    ensures Walk(g, [id])
  {
  }

  lemma WithinKnown(p: Plan, groups: map<string, Group>, target: string, id: string)
    requires groups == ByName(p.groups) && Known(p, target) && Within(groups, target, id)
    requires forall g :: g in p.groups ==> GoodGroup(p, g)
    ensures Known(p, id)
  {
    hide Known;
    var q :| Chain(groups, q) && q[0] == target && q[|q| - 1] == id;
    if |q| > 1 {
      assert MemberStep(groups, q[|q| - 2], q[|q| - 2 + 1]);
      ByNameFinds(p.groups);
      assert GoodGroup(p, groups[q[|q| - 2]]);
    }
  }

  ghost predicate ExitWithin(p: Plan, groups: map<string, Group>, target: string, e: Exit)
  {
    match e
    case ToDirect => Within(groups, target, "direct")
    case ToReject => Within(groups, target, "reject")
    case ToDns => Within(groups, target, "dns")
    case ToServers(ids) => forall s :: s in ids ==> s in Ids(p.outbounds) && Within(groups, target, s)
  }

  /** Where Xray sends a target's connections stays within the target's members. */
  lemma ExitStaysWithinMembers(p: Plan, x: Context, order: seq<string>, byGroup: map<string, string>, balancers: seq<Balancer>, id: string)
    requires WellFormed(p) && x == ContextOf(p, x.sel)
    requires Balanced(x, order, byGroup, balancers) && Covered(x, order, Resolve(x, id, 0))
    ensures ExitWithin(p, x.groups, id, ExitOf(p, balancers, Rendered(order, Resolve(x, id, 0))))
    ensures Resolve(x, id, 0).Fixed? ==> var e := ExitOf(p, balancers, Rendered(order, Resolve(x, id, 0)));
                                         e.ToServers? ==> exists s :: e.ids == {s}
  {
    hide WellFormed, Resolve, Within, Balanced, ExitOf;
    var r := Resolve(x, id, 0);
    ResolvesWithin(x, id, 0);
    if r.Fixed? {
      var m :| TagNames(x, r.tag, m) && Within(x.groups, id, m);
      FixedExit(p, x, balancers, r.tag, m);
    } else {
      var n :| n in x.groups && x.groups[n] == r.group && Within(x.groups, id, n);
      AutoExit(p, x, order, byGroup, balancers, id, r.group, n);
    }
  }

  lemma FixedExit(p: Plan, x: Context, balancers: seq<Balancer>, tag: string, m: string)
    requires WellFormed(p) && x == ContextOf(p, x.sel) && TagNames(x, tag, m)
    ensures match ExitOf(p, balancers, OutboundTag(tag))
            case ToDirect => m == "direct"
            case ToReject => m == "reject"
            case ToDns => m == "dns"
            case ToServers(ids) => ids == {m} && m in Ids(p.outbounds)
  {
    hide Acyclic, TagsOf, ByName, TagOf;
    TagsNameOutbounds(p.outbounds);
    if m in x.tags && x.tags[m] == tag {
      IdSeen(p.outbounds, m);
      var i :| 0 <= i < |p.outbounds| && p.outbounds[i].id == m;
      FixedTagsApart(i);
      ServerExit(p, balancers, i);
    }
  }

  lemma AutoExit(p: Plan, x: Context, order: seq<string>, byGroup: map<string, string>, balancers: seq<Balancer>,
                 id: string, g: Group, n: string)
    requires WellFormed(p) && x == ContextOf(p, x.sel) && Balanced(x, order, byGroup, balancers)
    requires g.name in order && n in x.groups && x.groups[n] == g && Within(x.groups, id, n)
    ensures ExitWithin(p, x.groups, id, ExitOf(p, balancers, BalancerTag(BalancerName(IndexOf(order, g.name)))))
  {
    hide Acyclic, TagsOf, ByName, ExitOf, BalancerName, Balanced, Within;
    ByNameFinds(p.groups);
    BalancerExit(p, x, order, byGroup, balancers, g);
    forall s | s in g.members ensures Within(x.groups, id, s) {
      WithinSelf(x.groups, s);
      assert MemberStep(x.groups, n, s);
      WithinMember(x.groups, n, s, s);
      WithinChain(x.groups, id, n, s);
    }
  }

  lemma WithinChain(groups: map<string, Group>, a: string, b: string, c: string)
    requires Within(groups, a, b) && Within(groups, b, c)
    ensures Within(groups, a, c)
  {
    var p :| Chain(groups, p) && p[0] == a && p[|p| - 1] == b;
    var q :| Chain(groups, q) && q[0] == b && q[|q| - 1] == c;
    var r := p + q[1..];
    forall i | 0 <= i < |r| - 1 ensures MemberStep(groups, r[i], r[i + 1]) {
      if i < |p| - 1 {
        assert MemberStep(groups, p[i], p[i + 1]);
      } else {
        assert MemberStep(groups, q[i - |p| + 1], q[i - |p| + 2]);
      }
    }
    assert Chain(groups, r) && r[0] == a;
    assert r[|r| - 1] == c;
  }

  /** A select group leads to its pinned server, or to its first member when the pin is no member. */
  lemma SelectFollowsItsPin(p: Plan, x: Context, balancers: seq<Balancer>, order: seq<string>, g: Group, s: string)
    requires WellFormed(p) && x == ContextOf(p, x.sel) && g in p.groups && g.kind == Select
    requires !BuiltIn(g.name) && !BuiltIn(s) && s in Ids(p.outbounds) && s in g.members
    requires if g.name in x.sel && x.sel[g.name] in g.members then s == x.sel[g.name] else s == g.members[0]
    ensures var r := Resolve(x, g.name, 0);
            r.Fixed? && ExitOf(p, balancers, Rendered(order, r)) == ToServers({s})
  {
    hide Acyclic, TagsOf, ByName, TagOf, ExitOf;
    ByNameFinds(p.groups);
    TagsNameOutbounds(p.outbounds);
    assert g.name in Names(p.groups) && g.name !in x.tags;
    assert x.groups[g.name] == g;
    assert |x.groups| > 0;
    assert Resolve(x, g.name, 0) == Resolve(x, s, 1) == Fixed(x.tags[s]);
    IdSeen(p.outbounds, s);
    var i :| 0 <= i < |p.outbounds| && p.outbounds[i].id == s;
    ServerExit(p, balancers, i);
  }

  /** Everything goes to an automatic group whose only member is another group. */
  const NESTED := Plan([Outbound("a", "A")], [Group("inner", Select, ["a"]), Group("auto", UrlTest, ["inner"])],
                       [Rule(MatchAll, "", "auto", false)], false)

  /** The plan is valid and rendered, and no connection has a server to go to. */
  lemma AutomaticGroupOfGroupsIsEmpty(x: Context, order: seq<string>, byGroup: map<string, string>, balancers: seq<Balancer>,
                                      lines: seq<Line>, c: Conn)
    requires x == ContextOf(NESTED, x.sel)
    ensures WellFormed(NESTED) && Accepts(x, NESTED.rules)
    ensures Balanced(x, order, byGroup, balancers) && Routes(x, NESTED, order, lines) ==>
              var at := First(LineHits(lines, c, false));
              at < |lines| && ExitOf(NESTED, balancers, lines[at].to) == ToServers({})
  {
    hide Balanced, ExitOf, Walk, Routes;
    NestedIsValid();
    NestedResolves(x);
    assert FirstAll(NESTED.rules) == 0;
    if Balanced(x, order, byGroup, balancers) && Routes(x, NESTED, order, lines) {
      SameRuleFires(x, NESTED, order, lines, c);
      assert Hits(NESTED.rules, c)[0];
      assert Fired(NESTED.rules, c) == 0;
      BalancerIsEmptyWithoutServers(NESTED, x, order, byGroup, balancers, NESTED.groups[1]);
    }
  }

  lemma NestedResolves(x: Context)
    requires x == ContextOf(NESTED, x.sel)
    ensures "auto" in x.groups && x.groups["auto"] == NESTED.groups[1]
    ensures Resolve(x, "auto", 0) == Auto(NESTED.groups[1])
  {
    ByNameFinds(NESTED.groups);
    TagsNameOutbounds(NESTED.outbounds);
    assert NESTED.groups[1] in NESTED.groups;
  }

  lemma NestedGroups()
    ensures var g := GraphOf(NESTED.groups);
            g.Keys == {"inner", "auto"} && g["inner"] == ["a"] && g["auto"] == ["inner"]
    ensures Names(NESTED.groups) == {"inner", "auto"}
  {
    ByNameFinds(NESTED.groups);
    assert NESTED.groups[0] in NESTED.groups && NESTED.groups[1] in NESTED.groups;
  }

  lemma NestedIsValid()
    ensures WellFormed(NESTED)
  {
    hide Acyclic, GraphOf, ByName;
    NestedGroups();
    var g := GraphOf(NESTED.groups);
    assert forall a, b :: Edge(g, a, b) ==> a == "auto" && b == "inner";
    OneEdgeIsAcyclic(g, "auto", "inner");
    assert Ids(NESTED.outbounds) == {"a"} by { assert NESTED.outbounds[0] in NESTED.outbounds; }
    assert forall g :: g in NESTED.groups ==> GoodGroup(NESTED, g);
  }

  lemma OneEdgeIsAcyclic(g: Graph, from: string, to: string)
    requires from != to && forall a, b :: Edge(g, a, b) ==> a == from && b == to
    ensures Acyclic(g)
  {
    forall c ensures !Cycle(g, c) {
      if Walk(g, c) && |c| > 1 {
        assert Edge(g, c[0], c[0 + 1]);
        assert Edge(g, c[|c| - 2], c[|c| - 2 + 1]);
      }
    }
  }
}
