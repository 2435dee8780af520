/** One plan on three engines: the same rule decides every connection. */
module Engines {
  import opened Text
  import opened Plans
  import opened PlanCheck
  import GroupGraph
  import opened Routing
  import opened SingBoxTags
  import opened PlanNames
  import Xray
  import XrayMeaning
  import SingBox
  import Mihomo
  import MihomoNames

  /** A plan as rendered for all three engines. */
  datatype Rendering = Rendering(
    x: Xray.Context, order: seq<string>, byGroup: map<string, string>, balancers: seq<Xray.Balancer>, xray: seq<Xray.Line>,
    names: map<string, string>, sets: seq<SingBox.RemoteSet>, singbox: seq<SingBox.Line>, final: string,
    script: MihomoNames.Script, byId: map<string, string>)

  ghost predicate AllAccept(p: Plan, r: Rendering)
  {
    && WellFormed(p) && GoodRanges(p.rules)
    && (forall id :: id in Ids(p.outbounds) + Names(p.groups) ==> !BuiltIn(id))
    && r.x == Xray.ContextOf(p, r.x.sel) && Xray.Balanced(r.x, r.order, r.byGroup, r.balancers)
    && Xray.Routes(r.x, p, r.order, r.xray)
    && Assigned(p).Some? && Inverse(r.names, Assigned(p).value.tags)
    && SingBox.Routes(Assigned(p).value.tags, r.sets, p.rules, r.singbox, r.final)
    && !r.script.alnum(',') && r.byId == MihomoNames.NamesOf(r.script, p) && Mihomo.Accepts(r.byId, p.rules)
    && (forall i :: 0 <= i < |p.rules| && i < FirstAll(p.rules) ==> Mihomo.NoComma(p.rules[i].value))
  }

  /**
   * For every connection that is not DNS the same plan rule fires in all three, by its position: Xray
   * leaves through the target the plan decides on or one of its members, sing-box through the tag of
   * that target, mihomo through its name.
   */
  lemma EnginesAgreeWithThePlan(p: Plan, r: Rendering, c: Conn)
    requires AllAccept(p, r)
    ensures var target := Decision(p.rules, c);
            var at := First(XrayMeaning.LineHits(r.xray, c, false));
            && at < |r.xray| && at == |Xray.Opening(p.tun)| + Fired(p.rules, c)
            && XrayMeaning.ExitWithin(p, r.x.groups, target, XrayMeaning.ExitOf(p, r.balancers, r.xray[at].to))
            && First(Mihomo.LineHits(Mihomo.Lines(r.byId, p.rules), c)) == Fired(p.rules, c)
            && First(SingBox.LineHits(r.sets, r.singbox, c, false)) == SingBox.PositionOf(p.rules, Fired(p.rules, c))
            && SingBox.PlanTarget(r.names, SingBox.Outcome(r.sets, r.singbox, r.final, c, false)) == target
            && Mihomo.Outcome(Mihomo.Lines(r.byId, p.rules), c) == Mihomo.TargetName(r.byId, target)
  {
    XrayAgrees(p, r, c);
    XrayRefusesRuleSets(p, r);
    hide WellFormed, Xray.Routes, Xray.Balanced, SingBox.Routes, Decision, First, Assigned, Mihomo.Lines, Mihomo.Outcome, SingBox.Outcome;
    SingBox.DecidesAsPlanned(p, r.names, r.sets, r.singbox, r.final, c);
    MihomoNames.NamesAreSafe(r.script, p);
    Mihomo.SameRuleFires(r.byId, p.rules, c);
  }

  lemma XrayAgrees(p: Plan, r: Rendering, c: Conn)
    requires AllAccept(p, r)
    ensures var at := First(XrayMeaning.LineHits(r.xray, c, false));
            && at < |r.xray| && at == |Xray.Opening(p.tun)| + Fired(p.rules, c)
            && XrayMeaning.ExitWithin(p, r.x.groups, Decision(p.rules, c), XrayMeaning.ExitOf(p, r.balancers, r.xray[at].to))
  {
    hide WellFormed, Xray.Routes, Xray.Balanced, SingBox.Routes, First, Assigned, Xray.Resolve, XrayMeaning.ExitWithin, XrayMeaning.ExitOf;
    XrayMeaning.SameRuleFires(r.x, p, r.order, r.xray, c);
    var n, at := Fired(p.rules, c), First(XrayMeaning.LineHits(r.xray, c, false));
    if n < |p.rules| {
      XrayMeaning.ExitStaysWithinMembers(p, r.x, r.order, r.byGroup, r.balancers, p.rules[n].target);
    } else {
      DirectExit(p, r.x.groups, r.balancers);
    }
  }

  lemma DirectExit(p: Plan, groups: map<string, Group>, balancers: seq<Xray.Balancer>)
    ensures XrayMeaning.ExitWithin(p, groups, "direct", XrayMeaning.ExitOf(p, balancers, Xray.OutboundTag(Xray.TAG_DIRECT)))
  {
    XrayMeaning.WithinSelf(groups, "direct");
  }

  lemma XrayRefusesRuleSets(p: Plan, r: Rendering)
    requires AllAccept(p, r)
    ensures Mihomo.Plain(p.rules)
  {
    hide WellFormed, Xray.Balanced, SingBox.Routes, Assigned, Xray.Resolve;
    forall i | 0 <= i < |p.rules| && i < FirstAll(p.rules) ensures p.rules[i].kind != RuleSet {
      assert Xray.CarriedAs(r.x, r.order, p.rules[i], r.xray[|Xray.Opening(p.tun)| + i]);
    }
  }

  const SIMPLE := Plan([Outbound("a", "A")], [], [Rule(MatchAll, "", "a", false)], false)

  lemma SimpleIsValid()
    ensures WellFormed(SIMPLE) && GoodRanges(SIMPLE.rules) && Ids(SIMPLE.outbounds) == {"a"} && Names(SIMPLE.groups) == {}
    ensures FirstAll(SIMPLE.rules) == 0 && SingBox.FirstFinal(SIMPLE.rules) == 0
  {
    var g := GraphOf(SIMPLE.groups);
    assert SIMPLE.outbounds[0] in SIMPLE.outbounds;
    assert Ids(SIMPLE.outbounds) == {"a"} && Names(SIMPLE.groups) == {};
    forall c ensures !GroupGraph.Cycle(g, c) {
      assert GroupGraph.Walk(g, c) && |c| > 1 ==> GroupGraph.Edge(g, c[0], c[0 + 1]);
    }
  }

  lemma SimpleOnXray(x: Xray.Context)
    requires x == Xray.ContextOf(SIMPLE, map[])
    ensures Xray.Balanced(x, [], map[], []) && "a" in x.tags
    ensures Xray.Routes(x, SIMPLE, [], [Xray.Line(Xray.Anything, Xray.OutboundTag(x.tags["a"]))])
  {
    hide Xray.TagOf;
    XrayMeaning.TagsNameOutbounds(SIMPLE.outbounds);
    assert SIMPLE.outbounds[0].id in x.tags;
    assert Xray.Resolve(x, "a", 0) == Xray.Fixed(x.tags["a"]);
  }

  lemma SimpleOnSingBox()
    ensures Assigned(SIMPLE).Some? && "a" in Assigned(SIMPLE).value.tags
    ensures var tags := Assigned(SIMPLE).value.tags;
            Inverse(map[tags["a"] := "a"], tags) && SingBox.Routes(tags, [], SIMPLE.rules, SingBox.OPENING, tags["a"])
  {
    hide Assigned, WellFormed;
    SimpleIsValid();
    TagsAreInjective(SIMPLE);
    var tags := Assigned(SIMPLE).value.tags;
    assert tags.Keys == {"a"};
    assert SingBox.Done(tags, [], SIMPLE.rules, SingBox.OPENING, 0);
  }

  lemma SimpleOnMihomo(script: MihomoNames.Script)
    requires !script.alnum(',')
    ensures Mihomo.Accepts(MihomoNames.NamesOf(script, SIMPLE), SIMPLE.rules)
  {
    hide MihomoNames.Sanitized, MihomoNames.UniqueName;
    MihomoNames.ServerNamesAreSafe(script, SIMPLE.outbounds);
    assert SIMPLE.outbounds[0] in SIMPLE.outbounds;
    assert "a" in MihomoNames.NamesOf(script, SIMPLE);
  }

  /** There is such a plan: one server behind a catch-all is accepted by all three. */
  lemma SomePlanIsAccepted() returns (r: Rendering)
    ensures AllAccept(SIMPLE, r)
  {
    hide WellFormed, Xray.Balanced, Xray.Routes, SingBox.Routes, Assigned, Inverse, Xray.ContextOf;
    SimpleIsValid();
    SimpleOnSingBox();
    var x := Xray.ContextOf(SIMPLE, map[]);
    SimpleOnXray(x);
    var tags := Assigned(SIMPLE).value.tags;
    var script := MihomoNames.Script(c => 'a' <= c <= 'z' || 'A' <= c <= 'Z', _ => 1);
    r := Rendering(x, [], map[], [], [Xray.Line(Xray.Anything, Xray.OutboundTag(x.tags["a"]))],
                   map[tags["a"] := "a"], [], SingBox.OPENING, tags["a"], script, MihomoNames.NamesOf(script, SIMPLE));
    SimpleOnMihomo(script);
    SelectionKept(x);
  }

  lemma SelectionKept(x: Xray.Context)
    requires x == Xray.ContextOf(SIMPLE, map[])
    ensures x == Xray.ContextOf(SIMPLE, x.sel)
  {
  }
}
