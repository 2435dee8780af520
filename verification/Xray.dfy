/** The Xray renderer: fixed outbound tags, resolved targets, balancers and the routing section. */
module Xray {
  import opened Text
  import opened Plans
  import opened Routing

  const TAG_DIRECT := "direct"
  const TAG_BLOCK := "block"
  const TAG_DNS := "dns-out"

  datatype Target = OutboundTag(tag: string) | BalancerTag(tag: string)

  datatype Match =
    | TunDns
    | Anything
    | DomainText(text: string)
    | IpText(text: string)
    | PortText(text: string)
    | SourcePortText(text: string)
    | ProcessText(text: string)
    | NetworkText(text: string)

  datatype Line = Line(when: Match, to: Target)

  datatype Strategy = LeastPing | RoundRobin

  datatype Balancer = Balancer(tag: string, selector: seq<string>, strategy: Strategy, fallback: Option<string>)

  datatype Failure = UnknownTarget | PartOfCycle | NoMembers | UnsupportedGroup | UnsupportedRule

  datatype Resolved = Fixed(tag: string) | Auto(group: Group) | Failed(why: Failure)

  datatype Context = Context(tags: map<string, string>, groups: map<string, Group>, sel: map<string, string>)

  // ---- tags ----

  function Zeros(n: nat): (s: string)
    ensures |s| == n && forall i :: 0 <= i < n ==> s[i] == '0'
  {
    seq(n, _ => '0')
  }

  /** The tag of the outbound at an index: the letter o and at least four digits. */
  function TagOf(i: nat): string
  {
    var digits := Itoa(i + 1);
    "o" + (if |digits| < 4 then Zeros(4 - |digits|) else []) + digits
  }

  function TagsOf(outbounds: seq<Outbound>): map<string, string>
  {
    if outbounds == [] then map[]
    else TagsOf(outbounds[..|outbounds| - 1])[outbounds[|outbounds| - 1].id := TagOf(|outbounds| - 1)]
  }

  function BalancerName(k: nat): string { "b-" + Itoa(k + 1) }

  // ---- targets ----

  function ContextOf(p: Plan, sel: map<string, string>): Context
  {
    Context(TagsOf(p.outbounds), ByName(p.groups), sel)
  }

  function Pick(x: Context, g: Group): (m: string)
    requires g.members != []
    ensures m in g.members
  {
    if g.name in x.sel && x.sel[g.name] in g.members then x.sel[g.name] else g.members[0]
  }

  /** What a target resolves to, with the renderer's depth guard. */
  function Resolve(x: Context, id: string, depth: nat): Resolved
    decreases if depth > |x.groups| then 0 else |x.groups| + 1 - depth
  {
    if id == "direct" then Fixed(TAG_DIRECT)
    else if id == "reject" then Fixed(TAG_BLOCK)
    else if id == "dns" then Fixed(TAG_DNS)
    else if id in x.tags then Fixed(x.tags[id])
    else if id !in x.groups then Failed(UnknownTarget)
    else if depth > |x.groups| then Failed(PartOfCycle)
    else
      var g := x.groups[id];
      if g.members == [] then Failed(NoMembers)
      else match g.kind
           case Select => Resolve(x, Pick(x, g), depth + 1)
           case UrlTest => Auto(g)
           case LoadBalance => Auto(g)
           case _ => Failed(UnsupportedGroup)
  }

  function Selector(tags: map<string, string>, members: seq<string>): seq<string>
  {
    if members == [] then []
    else
      var front, last := Selector(tags, members[..|members| - 1]), members[|members| - 1];
      if last in tags then front + [tags[last]] else front
  }

  function BalancerOf(tags: map<string, string>, g: Group, tag: string): Balancer
  {
    var selector := Selector(tags, g.members);
    Balancer(tag, selector, if g.kind == LoadBalance then RoundRobin else LeastPing,
             if selector == [] then None else Some(selector[0]))
  }

  /** Where a group first appears among the rendered balancers. */
  function IndexOf(order: seq<string>, name: string): (k: nat)
    requires name in order
    ensures k < |order| && order[k] == name
  {
    if order[0] == name then 0 else 1 + IndexOf(order[1..], name)
  }

  function Rendered(order: seq<string>, r: Resolved): Target
    requires !r.Failed? && (r.Auto? ==> r.group.name in order)
  {
    if r.Fixed? then OutboundTag(r.tag) else BalancerTag(BalancerName(IndexOf(order, r.group.name)))
  }

  lemma {:induction false} IndexKept(order: seq<string>, longer: seq<string>, name: string)
    requires name in order && order <= longer
    ensures name in longer && IndexOf(longer, name) == IndexOf(order, name)
  {
    assert longer[0] == order[0];
    if order[0] != name {
      assert name in order[1..] && order[1..] <= longer[1..];
      IndexKept(order[1..], longer[1..], name);
    }
  }

  // ---- rules ----

  function MatchOf(r: Rule): Option<Match>
  {
    match r.kind
    case Domain => Some(DomainText("full:" + r.value))
    case DomainSuffix => Some(DomainText("domain:" + r.value))
    case DomainKeyword => Some(DomainText("keyword:" + r.value))
    case GeoSite => Some(DomainText("geosite:" + Lower(r.value)))
    case IpCidr => Some(IpText(r.value))
    case GeoIp => Some(IpText("geoip:" + (if Lower(r.value) == "lan" then "private" else Lower(r.value))))
    case Port => Some(PortText(r.value))
    case SrcPort => Some(SourcePortText(r.value))
    case Process => Some(ProcessText(r.value))
    case Protocol => Some(NetworkText(Lower(r.value)))
    case _ => None
  }

  /** A rule the renderer can carry over. */
  predicate Carries(x: Context, r: Rule)
  {
    !Resolve(x, r.target, 0).Failed? && (r.kind == MatchAll || MatchOf(r).Some?)
  }

  /** Everything up to and including the first catch-all can be carried over. */
  predicate Accepts(x: Context, rules: seq<Rule>)
  {
    forall i :: 0 <= i < |rules| && i <= FirstAll(rules) ==> Carries(x, rules[i])
  }

  predicate Covered(x: Context, order: seq<string>, r: Resolved)
  {
    !r.Failed? && (r.Auto? ==> r.group.name in order)
  }

  function LineOf(x: Context, order: seq<string>, r: Rule): Line
    requires Carries(x, r) && Covered(x, order, Resolve(x, r.target, 0))
  {
    Line(if r.kind == MatchAll then Anything else MatchOf(r).value, Rendered(order, Resolve(x, r.target, 0)))
  }

  function Opening(tun: bool): seq<Line>
  {
    if tun then [Line(TunDns, OutboundTag(TAG_DNS))] else []
  }

  predicate CarriedAs(x: Context, order: seq<string>, r: Rule, line: Line)
  {
    Carries(x, r) && Covered(x, order, Resolve(x, r.target, 0)) && line == LineOf(x, order, r)
  }

  /** One line per rule up to and including the first catch-all, or a closing line to direct. */
  predicate Routes(x: Context, p: Plan, order: seq<string>, lines: seq<Line>)
  {
    var opening, n := Opening(p.tun), FirstAll(p.rules);
    && |lines| == |opening| + n + 1
    && lines[..|opening|] == opening
    && (forall i :: 0 <= i <= n && i < |p.rules| ==> CarriedAs(x, order, p.rules[i], lines[|opening| + i]))
    && (n == |p.rules| ==> lines[|opening| + n] == Line(Anything, OutboundTag(TAG_DIRECT)))
  }

  // ---- the renderer ----

  predicate Distinct(order: seq<string>)
  {
    forall i, j :: 0 <= i < j < |order| ==> order[i] != order[j]
  }

  /** The balancers rendered so far, in order, are those of the groups named. */
  ghost predicate Balanced(x: Context, order: seq<string>, byGroup: map<string, string>, balancers: seq<Balancer>)
  {
    && Distinct(order) && |order| == |balancers|
    && (forall n :: n in byGroup ==> n in order)
    && forall k :: 0 <= k < |order| ==> BalancedAt(x, order[k], byGroup, balancers[k], k)
  }

  ghost predicate BalancedAt(x: Context, name: string, byGroup: map<string, string>, b: Balancer, k: nat)
  {
    && name in x.groups && x.groups[name].name == name
    && name in byGroup && byGroup[name] == BalancerName(k)
    && b == BalancerOf(x.tags, x.groups[name], BalancerName(k))
  }

  lemma {:induction false} IndexIs(order: seq<string>, k: nat)
    requires Distinct(order) && k < |order|
    ensures IndexOf(order, order[k]) == k
  {
    if k > 0 {
      assert order[0] != order[k];
      IndexIs(order[1..], k - 1);
    }
  }

  lemma BalancerIs(tags: map<string, string>, g: Group, tag: string)
    ensures var selector := Selector(tags, g.members);
            BalancerOf(tags, g, tag) == Balancer(tag, selector, if g.kind == LoadBalance then RoundRobin else LeastPing,
                                                 if |selector| > 0 then Some(selector[0]) else None)
  {
  }

  lemma BalancerFound(x: Context, order: seq<string>, byGroup: map<string, string>, balancers: seq<Balancer>, g: Group)
    requires Balanced(x, order, byGroup, balancers) && g.name in byGroup
    ensures g.name in order && byGroup[g.name] == BalancerName(IndexOf(order, g.name))
  {
    hide BalancerName, BalancerOf;
    var k := IndexOf(order, g.name);
    assert BalancedAt(x, order[k], byGroup, balancers[k], k);
  }

  lemma BalancerAdded(x: Context, order: seq<string>, byGroup: map<string, string>, balancers: seq<Balancer>, g: Group)
    requires Balanced(x, order, byGroup, balancers) && g.name !in byGroup
    requires g.name in x.groups && x.groups[g.name] == g
    ensures |order| == |balancers|
    ensures var tag := BalancerName(|balancers|);
            Balanced(x, order + [g.name], byGroup[g.name := tag], balancers + [BalancerOf(x.tags, g, tag)])
    ensures IndexOf(order + [g.name], g.name) == |balancers|
  {
    hide BalancerName, BalancerOf, BalancedAt, Distinct, IndexOf;
    var longer, tag := order + [g.name], BalancerName(|balancers|);
    var names, all := byGroup[g.name := tag], balancers + [BalancerOf(x.tags, g, tag)];
    if g.name in order { NameBalanced(x, byGroup, balancers, order, IndexOf(order, g.name)); }
    forall k | 0 <= k < |order| ensures BalancedAt(x, longer[k], names, all[k], k) {
      StillBalanced(x, order[k], byGroup, balancers[k], k, g.name, tag);
    }
    NewlyBalanced(x, g, byGroup, |balancers|);
    DistinctAppended(order, g.name);
  }

  lemma NameBalanced(x: Context, byGroup: map<string, string>, balancers: seq<Balancer>, order: seq<string>, k: nat)
    requires k < |order| == |balancers| && BalancedAt(x, order[k], byGroup, balancers[k], k)
    ensures order[k] in byGroup
  {
  }

  lemma StillBalanced(x: Context, name: string, byGroup: map<string, string>, b: Balancer, k: nat, other: string, tag: string)
    requires BalancedAt(x, name, byGroup, b, k) && other !in byGroup
    ensures name != other && BalancedAt(x, name, byGroup[other := tag], b, k)
  {
    hide BalancerName, BalancerOf;
  }

  lemma NewlyBalanced(x: Context, g: Group, byGroup: map<string, string>, k: nat)
    requires g.name in x.groups && x.groups[g.name] == g
    ensures var tag := BalancerName(k); BalancedAt(x, g.name, byGroup[g.name := tag], BalancerOf(x.tags, g, tag), k)
  {
    hide BalancerName, BalancerOf;
  }

  lemma DistinctAppended(order: seq<string>, name: string)
    requires Distinct(order) && name !in order
    ensures Distinct(order + [name]) && IndexOf(order + [name], name) == |order|
  {
    hide IndexOf;
    assert Distinct(order + [name]);
    IndexIs(order + [name], |order|);
  }

  method BuildTags(outbounds: seq<Outbound>) returns (tags: map<string, string>)
    ensures tags == TagsOf(outbounds)
  {
    tags := map[];
    for i := 0 to |outbounds|
      invariant tags == TagsOf(outbounds[..i])
    {
      assert outbounds[..i + 1][..i] == outbounds[..i];
      tags := tags[outbounds[i].id := TagOf(i)];
    }
    assert outbounds[..|outbounds|] == outbounds;
  }

  method BuildGroups(groups: seq<Group>) returns (byName: map<string, Group>)
    ensures byName == ByName(groups)
  {
    byName := map[];
    for i := 0 to |groups|
      invariant byName == ByName(groups[..i])
    {
      assert groups[..i + 1][..i] == groups[..i];
      byName := byName[groups[i].name := groups[i]];
    }
    assert groups[..|groups|] == groups;
  }

  class Renderer {
    const plan: Plan
    const x: Context
    var balancers: seq<Balancer>
    var byGroup: map<string, string>
    ghost var order: seq<string>

    ghost predicate Valid()
      reads this
    {
      && x == ContextOf(plan, x.sel)
      && Balanced(x, order, byGroup, balancers)
    }

    constructor (plan: Plan, sel: map<string, string>)
      ensures Valid() && this.plan == plan && x.sel == sel && order == []
    {
      var tags := BuildTags(plan.outbounds);
      var groups := BuildGroups(plan.groups);
      this.plan := plan;
      x := Context(tags, groups, sel);
      balancers := [];
      byGroup := map[];
      order := [];
    }

    /** Every group is rendered as one balancer, however many rules name it. */
    method BalancerFor(g: Group) returns (tag: string)
      requires Valid() && g.name in x.groups && x.groups[g.name] == g
      modifies this
      ensures Valid() && old(order) <= order && g.name in order
      ensures tag == BalancerName(IndexOf(order, g.name))
    {
      hide Balanced, BalancerName, BalancerOf, ContextOf;
      if g.name in byGroup {
        BalancerFound(x, order, byGroup, balancers, g);
        return byGroup[g.name];
      }
      tag := NextName(|balancers|);
      BalancerAdded(x, order, byGroup, balancers, g);
      byGroup := byGroup[g.name := tag];
      var members := Collect(g.members);
      var strategy := if g.kind == LoadBalance then RoundRobin else LeastPing;
      var fallback := if |members| > 0 then Some(members[0]) else None;
      assert Balancer(tag, members, strategy, fallback) == BalancerOf(x.tags, g, tag) by { BalancerIs(x.tags, g, tag); }
      balancers := balancers + [Balancer(tag, members, strategy, fallback)];
      order := order + [g.name];
    }

    method Collect(members: seq<string>) returns (selector: seq<string>)
      ensures selector == Selector(x.tags, members)
    {
      selector := [];
      for i := 0 to |members|
        invariant selector == Selector(x.tags, members[..i])
      {
        assert members[..i + 1][..i] == members[..i];
        if members[i] in x.tags { selector := selector + [x.tags[members[i]]]; }
      }
      assert members[..|members|] == members;
    }

    static method NextName(count: nat) returns (tag: string)
      ensures tag == BalancerName(count)
    {
      tag := "b-" + Itoa(count + 1);
    }

    method Target(id: string, depth: nat) returns (failure: Option<Failure>, to: Target)
      requires Valid()
      modifies this
      ensures Valid() && old(order) <= order
      ensures match Resolve(x, id, depth)
              case Failed(why) => failure == Some(why)
              case found => failure == None && Covered(x, order, found) && to == Rendered(order, found)
      decreases if depth > |x.groups| then 0 else |x.groups| + 1 - depth
    {
      hide TagsOf, BalancerName, Balanced;
      failure, to := None, OutboundTag(TAG_DIRECT);
      if id == "direct" { return; }
      if id == "reject" { return None, OutboundTag(TAG_BLOCK); }
      if id == "dns" { return None, OutboundTag(TAG_DNS); }
      if id in x.tags { return None, OutboundTag(x.tags[id]); }
      if id !in x.groups { return Some(UnknownTarget), to; }
      if depth > |x.groups| { return Some(PartOfCycle), to; }
      var g := x.groups[id];
      if |g.members| == 0 { return Some(NoMembers), to; }
      match g.kind
      case Select =>
        var member := g.members[0];
        if g.name in x.sel && x.sel[g.name] in g.members { member := x.sel[g.name]; }
        failure, to := Target(member, depth + 1);
      case UrlTest =>
        ByNameFinds(plan.groups);
        var tag := BalancerFor(g);
        to := BalancerTag(tag);
      case LoadBalance =>
        ByNameFinds(plan.groups);
        var tag := BalancerFor(g);
        to := BalancerTag(tag);
      case _ =>
        failure := Some(UnsupportedGroup);
    }

    /** The routing section: it fails exactly when a rule that could decide cannot be carried over. */
    method Routing() returns (failure: Option<Failure>, lines: seq<Line>)
      requires Valid()
      modifies this
      ensures Valid()
      ensures failure.None? <==> Accepts(x, plan.rules)
      ensures failure.None? ==> Routes(x, plan, order, lines)
    {
      hide Resolve, MatchOf, Balanced, ContextOf, Rendered;
      lines := Opening(plan.tun);
      var final := Line(Anything, OutboundTag(TAG_DIRECT));
      ghost var n := FirstAll(plan.rules);
      for i := 0 to |plan.rules|
        invariant Valid() && i <= n
        invariant final == Line(Anything, OutboundTag(TAG_DIRECT))
        invariant Done(x, plan, order, lines, i)
      {
        var rule := plan.rules[i];
        ghost var before := order;
        var why, to := Target(rule.target, 0);
        if why.Some? { return why, []; }
        DoneKept(x, plan, before, order, lines, i);
        if rule.kind == MatchAll {
          final := Line(Anything, to);
          lines := lines + [final];
          return None, lines;
        }
        var m := MatchOf(rule);
        if m.None? { return Some(UnsupportedRule), []; }
        lines := lines + [Line(m.value, to)];
      }
      lines := lines + [final];
      failure := None;
    }
  }

  /** The lines so far carry over the first rules, none of them a catch-all. */
  predicate Done(x: Context, p: Plan, order: seq<string>, lines: seq<Line>, i: nat)
    requires i <= |p.rules|
  {
    var opening := Opening(p.tun);
    && |lines| == |opening| + i
    && lines[..|opening|] == opening
    && forall k :: 0 <= k < i ==> CarriedAs(x, order, p.rules[k], lines[|opening| + k])
  }

  lemma DoneKept(x: Context, p: Plan, order: seq<string>, longer: seq<string>, lines: seq<Line>, i: nat)
    requires i <= |p.rules| && Done(x, p, order, lines, i) && order <= longer
    ensures Done(x, p, longer, lines, i)
  {
    hide Resolve, MatchOf;
    forall k | 0 <= k < i ensures CarriedAs(x, longer, p.rules[k], lines[|Opening(p.tun)| + k]) {
      assert CarriedAs(x, order, p.rules[k], lines[|Opening(p.tun)| + k]);
      var r := Resolve(x, p.rules[k].target, 0);
      if r.Auto? { IndexKept(order, longer, r.group.name); }
    }
  }
}
