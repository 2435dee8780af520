/** Plan validation: identifiers, references between rules and groups, and the group graph. */
module PlanCheck {
  import opened Text
  import opened Plans
  import opened GroupGraph

  function GraphOf(groups: seq<Group>): Graph
  {
    map n | n in ByName(groups) :: ByName(groups)[n].members
  }

  predicate Known(p: Plan, target: string)
  {
    target in Ids(p.outbounds) || target in Names(p.groups) || BuiltIn(target)
  }

  predicate GoodOutbound(o: Outbound)
  {
    0 < |o.id| <= MAX_ID_LENGTH
  }

  predicate GoodGroup(p: Plan, g: Group)
  {
    g.kind != OtherGroup && g.members != [] && forall m :: m in g.members ==> Known(p, m)
  }

  /** A value is there unless everything matches, holds no line breaks or tabs, and is a number for ports. */
  predicate GoodValue(r: Rule)
  {
    && (r.kind != MatchAll ==> TrimSpace(r.value) != "")
    && '\r' !in r.value && '\n' !in r.value && '\t' !in r.value
    && (r.kind == Port || r.kind == SrcPort ==> Atoi(r.value).Some?)
  }

  predicate GoodRule(p: Plan, r: Rule)
  {
    r.kind != OtherRule && GoodValue(r) && r.target != "" && Known(p, r.target)
  }

  predicate WithinLimits(p: Plan)
  {
    0 < |p.outbounds| <= MAX_OUTBOUNDS && |p.groups| <= MAX_GROUPS && |p.rules| <= MAX_RULES
  }

  /** What a plan that passes validation promises the renderers. */
  ghost predicate WellFormed(p: Plan)
  {
    && WithinLimits(p)
    && (forall o :: o in p.outbounds ==> GoodOutbound(o))
    && DistinctIds(p.outbounds)
    && DistinctNames(p.groups)
    && Names(p.groups) !! Ids(p.outbounds)
    && (forall g :: g in p.groups ==> GoodGroup(p, g))
    && (forall r :: r in p.rules ==> GoodRule(p, r))
    && Acyclic(GraphOf(p.groups))
  }

  /** The depth-first search run from every group accepts exactly the well-formed plans. */
  method Validate(p: Plan) returns (ok: bool)
    ensures ok <==> WellFormed(p)
  {
    hide Acyclic;
    var outboundsOk, ids := CheckOutbounds(p.outbounds);
    var noClash, members := CollectMembers(p.groups, ids);
    var groupsOk := CheckGroups(p, ids, members);
    var rulesOk := CheckRules(p, ids, members.Keys);
    ok := WithinLimits(p) && outboundsOk && noClash && groupsOk && rulesOk;
  }

  method CheckOutbounds(outbounds: seq<Outbound>) returns (ok: bool, ids: set<string>)
    ensures ids == Ids(outbounds)
    ensures ok <==> DistinctIds(outbounds) && forall o :: o in outbounds ==> GoodOutbound(o)
  {
    ok, ids := true, {};
    for i := 0 to |outbounds|
      invariant ids == Ids(outbounds[..i])
      invariant ok <==> DistinctIds(outbounds[..i]) && forall o :: o in outbounds[..i] ==> GoodOutbound(o)
    {
      assert outbounds[..i + 1] == outbounds[..i] + [outbounds[i]];
      IdSeen(outbounds[..i], outbounds[i].id);
      if !GoodOutbound(outbounds[i]) || outbounds[i].id in ids { ok := false; }
      ids := ids + {outbounds[i].id};
    }
    assert outbounds[..|outbounds|] == outbounds;
  }

  lemma IdSeen(outbounds: seq<Outbound>, id: string)
    ensures id in Ids(outbounds) <==> exists i :: 0 <= i < |outbounds| && outbounds[i].id == id
  {
  }

  lemma NameSeen(groups: seq<Group>, name: string)
    ensures name in Names(groups) <==> exists i :: 0 <= i < |groups| && groups[i].name == name
  {
  }

  method CollectMembers(groups: seq<Group>, ids: set<string>) returns (ok: bool, members: Graph)
    ensures members == GraphOf(groups) && members.Keys == Names(groups)
    ensures ok <==> Names(groups) !! ids
  {
    ok, members := true, map[];
    for i := 0 to |groups|
      invariant members == GraphOf(groups[..i])
      invariant ok <==> Names(groups[..i]) !! ids
    {
      OneMoreGroup(groups, i);
      hide GraphOf, Names;
      members := members[groups[i].name := groups[i].members];
      if groups[i].name in ids { ok := false; }
    }
    assert groups[..|groups|] == groups;
    ByNameFinds(groups);
  }

  lemma OneMoreGroup(groups: seq<Group>, i: nat)
    requires i < |groups|
    ensures GraphOf(groups[..i + 1]) == GraphOf(groups[..i])[groups[i].name := groups[i].members]
    ensures Names(groups[..i + 1]) == Names(groups[..i]) + {groups[i].name}
  {
    var front := groups[..i + 1];
    assert front[..i] == groups[..i] && front == groups[..i] + [groups[i]];
  }

  method CheckGroups(p: Plan, ids: set<string>, members: Graph) returns (ok: bool)
    requires ids == Ids(p.outbounds) && members == GraphOf(p.groups) && members.Keys == Names(p.groups)
    ensures ok <==> && DistinctNames(p.groups) && Acyclic(members)
                    && forall g :: g in p.groups ==> GoodGroup(p, g)
  {
    hide Found, Acyclic, GraphOf;
    ok := true;
    var names: set<string> := {};
    for i := 0 to |p.groups|
      invariant names == Names(p.groups[..i])
      invariant ok <==> && DistinctNames(p.groups[..i])
                        && (forall g :: g in p.groups[..i] ==> GoodGroup(p, g))
                        && forall n :: n in names ==> !Found(members, n, {})
    {
      var g := p.groups[i];
      assert p.groups[..i + 1] == p.groups[..i] + [g];
      NameSeen(p.groups[..i], g.name);
      var good := CheckGroup(p, g, ids, members.Keys);
      var marks := new Marks();
      var cyclic := Search(g.name, members, marks);
      if !good || g.name in names || cyclic { ok := false; }
      names := names + {g.name};
    }
    assert p.groups[..|p.groups|] == p.groups;
    NothingFoundIsAcyclic(members);
  }

  method CheckGroup(p: Plan, g: Group, ids: set<string>, names: set<string>) returns (ok: bool)
    requires ids == Ids(p.outbounds) && names == Names(p.groups)
    ensures ok <==> GoodGroup(p, g)
  {
    ok := g.kind != OtherGroup && g.members != [];
    for i := 0 to |g.members|
      invariant ok <==> g.kind != OtherGroup && g.members != [] && forall k :: 0 <= k < i ==> Known(p, g.members[k])
    {
      var m := g.members[i];
      if m !in ids && m !in names && !BuiltIn(m) { ok := false; }
    }
  }

  method CheckRules(p: Plan, ids: set<string>, names: set<string>) returns (ok: bool)
    requires ids == Ids(p.outbounds) && names == Names(p.groups)
    ensures ok <==> forall r :: r in p.rules ==> GoodRule(p, r)
  {
    ok := true;
    for i := 0 to |p.rules|
      invariant ok <==> forall k :: 0 <= k < i ==> GoodRule(p, p.rules[k])
    {
      var r := p.rules[i];
      if r.kind == OtherRule || !GoodValue(r) { ok := false; }
      if r.target == "" {
        ok := false;
        continue;
      }
      if r.target !in ids && r.target !in names && !BuiltIn(r.target) { ok := false; }
    }
  }
}
