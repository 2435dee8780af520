/** The plan: servers, groups and the ordered rule list every engine is given. */
module Plans {
  datatype Outbound = Outbound(id: string, name: string)

  datatype GroupKind = Select | UrlTest | Fallback | LoadBalance | OtherGroup

  datatype Group = Group(name: string, kind: GroupKind, members: seq<string>)

  datatype RuleKind =
    | Domain | DomainSuffix | DomainKeyword | IpCidr | IpSuffix | GeoIp | GeoSite
    | RuleSet | Port | SrcPort | Process | Protocol | MatchAll | OtherRule

  datatype Rule = Rule(kind: RuleKind, value: string, target: string, noResolve: bool)

  datatype Plan = Plan(outbounds: seq<Outbound>, groups: seq<Group>, rules: seq<Rule>, tun: bool)

  const MAX_OUTBOUNDS := 5000
  const MAX_GROUPS := 500
  const MAX_RULES := 10000
  const MAX_ID_LENGTH := 128

  predicate BuiltIn(target: string)
  {
    target == "direct" || target == "reject" || target == "pass" || target == "dns"
  }

  function Ids(outbounds: seq<Outbound>): set<string>
  {
    set o | o in outbounds :: o.id
  }

  function Names(groups: seq<Group>): set<string>
  {
    set g | g in groups :: g.name
  }

  predicate DistinctIds(outbounds: seq<Outbound>)
  {
    forall i, j :: 0 <= i < j < |outbounds| ==> outbounds[i].id != outbounds[j].id
  }

  predicate DistinctNames(groups: seq<Group>)
  {
    forall i, j :: 0 <= i < j < |groups| ==> groups[i].name != groups[j].name
  }

  /** The groups by name; a later group of the same name replaces an earlier one. */
  function ByName(groups: seq<Group>): map<string, Group>
  {
    if groups == [] then map[]
    else var last := groups[|groups| - 1]; ByName(groups[..|groups| - 1])[last.name := last]
  }

  lemma {:induction false} ByNameFinds(groups: seq<Group>)
    ensures ByName(groups).Keys == Names(groups)
    ensures forall n :: n in ByName(groups) ==> ByName(groups)[n] in groups && ByName(groups)[n].name == n
    ensures DistinctNames(groups) ==> forall g :: g in groups ==> g.name in ByName(groups) && ByName(groups)[g.name] == g
  {
    if groups != [] {
      var front, last := groups[..|groups| - 1], groups[|groups| - 1];
      ByNameFinds(front);
      assert groups == front + [last];
      assert DistinctNames(groups) ==> forall g :: g in front ==> g.name != last.name;
    }
  }
}
