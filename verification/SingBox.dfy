/** The sing-box renderer's routing section: rule sets, matches, actions and the final outbound. */
module SingBox {
  import opened Text
  import opened Plans
  import opened Routing
  import opened SingBoxTags
  import opened PlanNames

  datatype Match =
    | Domains(v: string) | Suffixes(v: string) | Keywords(v: string) | Ranges(v: string)
    | Ports(port: int) | SourcePorts(port: int) | Processes(v: string) | Networks(v: string)
    | IsPrivate | InSet(tag: string) | DnsProtocol | Always

  datatype Action = Sniff | Reject | HijackDns | RouteTo(tag: string)

  datatype Line = Line(when: Match, act: Action)

  datatype RemoteSet = RemoteSet(tag: string, url: string, source: bool)

  // ---- remote rule sets ----

  function SetTag(k: nat): string { "rule-set-" + Itoa(k + 1) }

  /** A set is named after its place in the list or after what its address publishes. */
  ghost predicate NamedWell(tag: string, url: string, k: nat)
  {
    || tag == SetTag(k)
    || (exists code :: tag == "geoip-" + code && url == GeoIpUrl(code))
    || (exists name :: tag == "geosite-" + name && url == GeoSiteUrl(name))
  }

  ghost predicate GoodSets(sets: seq<RemoteSet>)
  {
    && (forall i, j :: 0 <= i < j < |sets| ==> sets[i].url != sets[j].url)
    && (forall k :: 0 <= k < |sets| ==> NamedWell(sets[k].tag, sets[k].url, k))
  }

  /** The address behind a tag: the engine takes the first set of that name. */
  function UrlOf(sets: seq<RemoteSet>, tag: string): Option<string>
  {
    if sets == [] then None
    else if sets[0].tag == tag then Some(sets[0].url)
    else UrlOf(sets[1..], tag)
  }

  lemma {:induction false} UrlOfFirst(sets: seq<RemoteSet>, k: nat)
    requires k < |sets| && forall i :: 0 <= i < k ==> sets[i].tag != sets[k].tag
    ensures UrlOf(sets, sets[k].tag) == Some(sets[k].url)
  {
    if k > 0 { UrlOfFirst(sets[1..], k - 1); }
  }

  lemma {:induction false} UrlOfKept(sets: seq<RemoteSet>, longer: seq<RemoteSet>, tag: string)
    requires sets <= longer && UrlOf(sets, tag).Some?
    ensures UrlOf(longer, tag) == UrlOf(sets, tag)
  {
    assert longer[0] == sets[0];
    if sets[0].tag != tag { UrlOfKept(sets[1..], longer[1..], tag); }
  }

  /** Two sets of one name have one address. */
  lemma NamesDecide(tag: string, a: string, b: string, i: nat, j: nat)
    requires i != j && NamedWell(tag, a, i) && NamedWell(tag, b, j)
    ensures a == b
  {
    hide GeoIpUrl, GeoSiteUrl;
    FamiliesDiffer(tag);
    if tag == SetTag(i) && tag == SetTag(j) {
      PrefixCancels("rule-set-", Itoa(i + 1), Itoa(j + 1));
      ItoaInjective(i + 1, j + 1);
    }
    forall x, y | tag == "geoip-" + x && tag == "geoip-" + y ensures x == y { PrefixCancels("geoip-", x, y); }
    forall x, y | tag == "geosite-" + x && tag == "geosite-" + y ensures x == y { PrefixCancels("geosite-", x, y); }
  }

  lemma FamiliesDiffer(tag: string)
    ensures forall k: nat :: tag == SetTag(k) ==> tag[0] == 'r'
    ensures forall code :: tag == "geoip-" + code ==> tag[0] == 'g' && tag[3] == 'i'
    ensures forall name :: tag == "geosite-" + name ==> tag[0] == 'g' && tag[3] == 's'
  {
  }

  lemma TagsFindTheirSets(sets: seq<RemoteSet>, k: nat)
    requires GoodSets(sets) && k < |sets|
    ensures UrlOf(sets, sets[k].tag) == Some(sets[k].url)
  {
    hide NamedWell;
    forall i | 0 <= i < k ensures sets[i].tag != sets[k].tag {
      if sets[i].tag == sets[k].tag { NamesDecide(sets[k].tag, sets[i].url, sets[k].url, i, k); }
    }
    UrlOfFirst(sets, k);
  }

  lemma PublishedSets(v: string)
    ensures Published(GeoIpUrl(v)) == InCountry(v)
    ensures Published(GeoSiteUrl(v)) == InCategory(v)
  {
    var a, b := GeoIpUrl(v), GeoSiteUrl(v);
    assert a[..|GEOIP_URL|] == GEOIP_URL && a[|a| - 4..] == ".srs" && a[|GEOIP_URL|..|a| - 4] == v;
    assert b[..|GEOSITE_URL|] == GEOSITE_URL && b[|b| - 4..] == ".srs" && b[|GEOSITE_URL|..|b| - 4] == v;
    assert b[51] == 's' && GEOIP_URL[51] == 'i';
    assert b[..|GEOIP_URL|][51] != GEOIP_URL[51];
  }

  // ---- conditions ----

  /** How sing-box reads a condition, given the rule sets of the same configuration. */
  function Reads(sets: seq<RemoteSet>, m: Match): Option<Atom>
  {
    match m
    case Domains(v) => Some(DomainIs(v))
    case Suffixes(v) => Some(DomainUnder(v))
    case Keywords(v) => Some(DomainHas(v))
    case Ranges(v) => Some(InCidr(v))
    case Ports(n) => Some(ToPort(Some(n)))
    case SourcePorts(n) => Some(FromPort(Some(n)))
    case Processes(v) => Some(ByProcess(v))
    case Networks(v) => Some(OverNetwork(v))
    case IsPrivate => Some(PrivateAddress)
    case InSet(tag) => (match UrlOf(sets, tag) case None => None case Some(url) => Some(Published(url)))
    case DnsProtocol => None
    case Always => None
  }

  /** The rules sing-box can be given. */
  predicate Supported(r: Rule)
  {
    match r.kind
    case Port => Atoi(r.value).Some?
    case SrcPort => Atoi(r.value).Some?
    case RuleSet => HasPrefix(r.value, "https://")
    case IpSuffix => false
    case MatchAll => false
    case OtherRule => false
    case _ => true
  }

  function TargetTag(tags: map<string, string>, id: string): Option<string>
  {
    if id == "direct" then Some("direct") else if id in tags then Some(tags[id]) else None
  }

  function ActionFor(tags: map<string, string>, target: string): Option<Action>
  {
    if target == "reject" then Some(Reject)
    else if target == "dns" then Some(HijackDns)
    else match TargetTag(tags, target) case None => None case Some(tag) => Some(RouteTo(tag))
  }

  /** The first catch-all that becomes the final outbound: a rejecting one stays a rule. */
  function FirstFinal(rules: seq<Rule>): (n: nat)
    ensures n <= |rules|
    ensures forall i :: 0 <= i < n ==> rules[i].kind != MatchAll || rules[i].target == "reject"
    ensures n < |rules| ==> rules[n].kind == MatchAll && rules[n].target != "reject"
  {
    if rules == [] || (rules[0].kind == MatchAll && rules[0].target != "reject") then 0 else 1 + FirstFinal(rules[1..])
  }

  predicate Carries(tags: map<string, string>, r: Rule)
  {
    if r.kind == MatchAll then r.target == "reject" else Supported(r) && ActionFor(tags, r.target).Some?
  }

  predicate Accepts(tags: map<string, string>, rules: seq<Rule>)
  {
    var n := FirstFinal(rules);
    && (forall i :: 0 <= i < n ==> Carries(tags, rules[i]))
    && (n < |rules| ==> TargetTag(tags, rules[n].target).Some?)
  }

  ghost predicate CarriedAs(tags: map<string, string>, sets: seq<RemoteSet>, r: Rule, line: Line)
  {
    && Carries(tags, r) && Some(line.act) == ActionFor(tags, r.target)
    && (if r.kind == MatchAll then line.when == Always else Reads(sets, line.when) == Some(Means(r)))
  }

  const OPENING := [Line(Always, Sniff), Line(DnsProtocol, HijackDns)]

  ghost predicate Done(tags: map<string, string>, sets: seq<RemoteSet>, rules: seq<Rule>, lines: seq<Line>, n: nat)
    requires n <= |rules|
  {
    && |lines| == 2 + n && lines[..2] == OPENING
    && forall i :: 0 <= i < n ==> CarriedAs(tags, sets, rules[i], lines[2 + i])
  }

  /** One line per rule before the final one, which names the outbound of everything else. */
  ghost predicate Routes(tags: map<string, string>, sets: seq<RemoteSet>, rules: seq<Rule>, lines: seq<Line>, final: string)
  {
    var n := FirstFinal(rules);
    && Done(tags, sets, rules, lines, n)
    && Some(final) == if n < |rules| then TargetTag(tags, rules[n].target) else Some("direct")
  }

  lemma ReadsKept(sets: seq<RemoteSet>, longer: seq<RemoteSet>, m: Match)
    requires sets <= longer && Reads(sets, m).Some?
    ensures Reads(longer, m) == Reads(sets, m)
  {
    if m.InSet? { UrlOfKept(sets, longer, m.tag); }
  }

  lemma DoneKept(tags: map<string, string>, sets: seq<RemoteSet>, longer: seq<RemoteSet>, rules: seq<Rule>, lines: seq<Line>, n: nat)
    requires n <= |rules| && Done(tags, sets, rules, lines, n) && sets <= longer
    ensures Done(tags, longer, rules, lines, n)
  {
    hide Reads, Means, ActionFor, Supported;
    forall i | 0 <= i < n ensures CarriedAs(tags, longer, rules[i], lines[2 + i]) {
      assert CarriedAs(tags, sets, rules[i], lines[2 + i]);
      if rules[i].kind != MatchAll { ReadsKept(sets, longer, lines[2 + i].when); }
    }
  }

  class Renderer {
    const plan: Plan
    const tags: map<string, string>
    var ruleSets: seq<RemoteSet>

    constructor (plan: Plan, tags: map<string, string>)
      ensures this.plan == plan && this.tags == tags && ruleSets == [] && GoodSets(ruleSets)
    {
      this.plan, this.tags := plan, tags;
      ruleSets := [];
    }

    /** One entry per address, whatever it is called. */
    method RemoteRuleSet(tag: string, url: string) returns (r: string)
      requires GoodSets(ruleSets) && NamedWell(tag, url, |ruleSets|)
      modifies this
      ensures GoodSets(ruleSets) && old(ruleSets) <= ruleSets && UrlOf(ruleSets, r) == Some(url)
      ensures |ruleSets| == |old(ruleSets)| + if exists s :: s in old(ruleSets) && s.url == url then 0 else 1
    {
      hide NamedWell, UrlOf;
      for k := 0 to |ruleSets|
        invariant ruleSets == old(ruleSets)
        invariant forall i :: 0 <= i < k ==> ruleSets[i].url != url
      {
        if ruleSets[k].url == url {
          TagsFindTheirSets(ruleSets, k);
          return ruleSets[k].tag;
        }
      }
      var source := |url| >= 5 && url[|url| - 5..] == ".json";
      ruleSets := ruleSets + [RemoteSet(tag, url, source)];
      TagsFindTheirSets(ruleSets, |ruleSets| - 1);
      return tag;
    }

    /** A supported rule becomes a condition sing-box reads as the rule was meant. */
    method MatchRule(rule: Rule) returns (m: Option<Match>)
      requires GoodSets(ruleSets)
      modifies this
      ensures GoodSets(ruleSets) && old(ruleSets) <= ruleSets
      ensures m.Some? <==> Supported(rule)
      ensures m.Some? ==> Reads(ruleSets, m.value) == Some(Means(rule))
    {
      hide GoodSets, UrlOf, GeoIpUrl, GeoSiteUrl, Published, Atoi;
      var v := rule.value;
      match rule.kind
      case Domain => return Some(Domains(v));
      case DomainSuffix => return Some(Suffixes(v));
      case DomainKeyword => return Some(Keywords(v));
      case IpCidr => return Some(Ranges(v));
      case Port =>
        var port := Atoi(v);
        if port.None? { return None; }
        return Some(Ports(port.value));
      case SrcPort =>
        var port := Atoi(v);
        if port.None? { return None; }
        return Some(SourcePorts(port.value));
      case Process => return Some(Processes(v));
      case Protocol => return Some(Networks(Lower(v)));
      case GeoIp =>
        if Lower(v) == "private" || Lower(v) == "lan" { return Some(IsPrivate); }
        PublishedSets(Lower(v));
        var tag := RemoteRuleSet("geoip-" + Lower(v), GeoIpUrl(Lower(v)));
        return Some(InSet(tag));
      case GeoSite =>
        PublishedSets(Lower(v));
        var tag := RemoteRuleSet("geosite-" + Lower(v), GeoSiteUrl(Lower(v)));
        return Some(InSet(tag));
      case RuleSet =>
        if !HasPrefix(v, "https://") { return None; }
        var tag := RemoteRuleSet(SetTag(|ruleSets|), v);
        return Some(InSet(tag));
      case _ => return None;
    }

    method Route() returns (ok: bool, lines: seq<Line>, final: string)
      requires GoodSets(ruleSets)
      modifies this
      ensures GoodSets(ruleSets)
      ensures ok <==> Accepts(tags, plan.rules)
      ensures ok ==> Routes(tags, ruleSets, plan.rules, lines, final)
    {
      hide Reads, Means, Supported, GoodSets;
      lines, final := OPENING, "direct";
      ghost var n := FirstFinal(plan.rules);
      for i := 0 to |plan.rules|
        invariant GoodSets(ruleSets) && i <= n && final == "direct"
        invariant Done(tags, ruleSets, plan.rules, lines, i)
      {
        var rule := plan.rules[i];
        if rule.kind == MatchAll {
          if rule.target == "reject" {
            lines := lines + [Line(Always, Reject)];
            continue;
          }
          var tag := TargetTag(tags, rule.target);
          if tag.None? { return false, [], final; }
          return true, lines, tag.value;
        }
        ghost var before := ruleSets;
        var m := MatchRule(rule);
        if m.None? { return false, [], final; }
        DoneKept(tags, before, ruleSets, plan.rules, lines, i);
        var act := Reject;
        match rule.target {
          case "reject" =>
          case "dns" => act := HijackDns;
          case _ =>
            var tag := TargetTag(tags, rule.target);
            if tag.None? { return false, [], final; }
            act := RouteTo(tag.value);
        }
        lines := lines + [Line(m.value, act)];
      }
      ok := true;
    }
  }

  // ---- meaning ----

  /** Sniffing never decides; hijacking takes DNS; the rest is asked of the connection. */
  predicate Decides(sets: seq<RemoteSet>, line: Line, c: Conn, dns: bool)
  {
    if line.act == Sniff then false
    else if line.when == Always then true
    else if line.when == DnsProtocol then dns
    else match Reads(sets, line.when) case None => false case Some(a) => c(a)
  }

  function LineHits(sets: seq<RemoteSet>, lines: seq<Line>, c: Conn, dns: bool): (h: seq<bool>)
    ensures |h| == |lines|
  {
    seq(|lines|, i requires 0 <= i < |lines| => Decides(sets, lines[i], c, dns))
  }

  function Outcome(sets: seq<RemoteSet>, lines: seq<Line>, final: string, c: Conn, dns: bool): Action
  {
    var at := First(LineHits(sets, lines, c, dns));
    if at < |lines| then lines[at].act else RouteTo(final)
  }

  lemma LineDecides(tags: map<string, string>, sets: seq<RemoteSet>, r: Rule, line: Line, c: Conn)
    requires CarriedAs(tags, sets, r, line)
    ensures Decides(sets, line, c, false) <==> Fires(r, c)
  {
    hide Means;
  }

  /** Where a plan rule stands: its own line behind the opening, or past the end as the final outbound. */
  function PositionOf(rules: seq<Rule>, n: nat): nat
  {
    2 + if n < FirstFinal(rules) then n else FirstFinal(rules)
  }

  /** sing-box does with every non-DNS connection what the first matching plan rule asks for. */
  lemma SameRuleFires(tags: map<string, string>, sets: seq<RemoteSet>, rules: seq<Rule>, lines: seq<Line>, final: string, c: Conn)
    requires Routes(tags, sets, rules, lines, final) && forall id :: id in tags ==> !BuiltIn(id)
    ensures Some(Outcome(sets, lines, final, c, false)) == ActionFor(tags, Decision(rules, c))
    ensures First(LineHits(sets, lines, c, false)) == PositionOf(rules, Fired(rules, c))
    ensures |lines| == 2 + FirstFinal(rules)
  {
    hide Reads, Means, Supported, First, FirstFinal, TargetTag;
    var n, end, hits := Fired(rules, c), FirstFinal(rules), LineHits(sets, lines, c, false);
    if end < |rules| { assert Hits(rules, c)[end]; }
    assert n <= end;
    forall i | 0 <= i < end ensures hits[2 + i] <==> Fires(rules[i], c) {
      LineDecides(tags, sets, rules[i], lines[2 + i], c);
    }
    assert lines[0] == OPENING[0] && lines[1] == OPENING[1];
    forall i | 2 <= i < 2 + n && i < |lines| ensures !hits[i] {
      assert !Hits(rules, c)[i - 2];
      assert hits[2 + (i - 2)] <==> Fires(rules[i - 2], c);
    }
    var at := First(hits);
    if n < end {
      assert Hits(rules, c)[n] && hits[2 + n];
      assert at == 2 + n;
      assert CarriedAs(tags, sets, rules[n], lines[2 + n]);
    } else {
      assert at == |lines|;
      FinalAction(tags, rules, final);
    }
  }

  lemma FinalAction(tags: map<string, string>, rules: seq<Rule>, final: string)
    requires forall id :: id in tags ==> !BuiltIn(id)
    requires var n := FirstFinal(rules);
             Some(final) == if n < |rules| then TargetTag(tags, rules[n].target) else Some("direct")
    ensures var n := FirstFinal(rules);
            n < |rules| ==> ActionFor(tags, rules[n].target) == Some(RouteTo(final))
    ensures FirstFinal(rules) == |rules| ==> ActionFor(tags, "direct") == Some(RouteTo(final))
  {
  }

  /** The plan target behind an action. */
  function PlanTarget(names: map<string, string>, a: Action): string
  {
    match a
    case Reject => "reject"
    case HijackDns => "dns"
    case RouteTo(tag) => PlanName(names, tag)
    case Sniff => ""
  }

  /** Read back through the plan names, sing-box's choice is the plan's own decision. */
  lemma DecidesAsPlanned(p: Plan, names: map<string, string>, sets: seq<RemoteSet>, lines: seq<Line>, final: string, c: Conn)
    requires Assigned(p).Some? && Inverse(names, Assigned(p).value.tags)
    requires forall id :: id in Ids(p.outbounds) + Names(p.groups) ==> !BuiltIn(id)
    requires Routes(Assigned(p).value.tags, sets, p.rules, lines, final)
    ensures PlanTarget(names, Outcome(sets, lines, final, c, false)) == Decision(p.rules, c)
    ensures First(LineHits(sets, lines, c, false)) == PositionOf(p.rules, Fired(p.rules, c))
  {
    hide Assigned, Routes, Outcome, Decision;
    var tags := Assigned(p).value.tags;
    TagsAreInjective(p);
    SameRuleFires(tags, sets, p.rules, lines, final, c);
    assert "direct" !in names;
  }
}
