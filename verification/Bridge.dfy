/** The Xray TUN bridge: one rule list split over a packet engine and Xray behind SOCKS. */
module Bridge {
  import opened Text
  import opened Plans
  import opened PlanCheck
  import opened Routing
  import opened Presets
  import GroupGraph

  const BRIDGE := "sora-xray-bridge"

  const STACKS := ["", "gvisor", "system", "mixed", "mips"]

  /** A process rule the split can keep. */
  predicate Splittable(windows: bool, r: Rule)
  {
    r.kind == Process ==> windows && (r.target == "direct" || r.target == "reject")
  }

  ghost predicate Accepts(windows: bool, p: Plan, stack: string)
  {
    WellFormed(p) && p.tun && stack in STACKS && forall i :: 0 <= i < |p.rules| ==> Splittable(windows, p.rules[i])
  }

  function Mapped(r: Rule): Rule
  {
    if BuiltIn(r.target) then r else r.(target := BRIDGE)
  }

  /** The rules of the packet engine; Xray keeps the plan's own list. */
  function TunRules(windows: bool, xray: string, rules: seq<Rule>): seq<Rule>
  {
    var rest := Rule(MatchAll, "", BRIDGE, false);
    if !windows then [rest]
    else [Rule(Process, xray, "direct", false)]
         + seq(|rules|, i requires 0 <= i < |rules| => Mapped(rules[i]))
         + [rest]
  }

  method Split(windows: bool, xray: string, p: Plan, stack: string) returns (tun: Option<seq<Rule>>)
    ensures tun.Some? <==> Accepts(windows, p, stack)
    ensures tun.Some? ==> tun.value == TunRules(windows, xray, p.rules)
  {
    hide WellFormed;
    var valid := Validate(p);
    if !valid || !p.tun || stack !in STACKS { return None; }
    for i := 0 to |p.rules|
      invariant forall k :: 0 <= k < i ==> Splittable(windows, p.rules[k])
    {
      var r := p.rules[i];
      if r.kind == Process && (!windows || (r.target != "direct" && r.target != "reject")) { return None; }
    }
    var rules := [Rule(MatchAll, "", BRIDGE, false)];
    if windows {
      rules := [Rule(Process, xray, "direct", false)];
      for i := 0 to |p.rules|
        invariant rules == [Rule(Process, xray, "direct", false)] + seq(i, k requires 0 <= k < i => Mapped(p.rules[k]))
      {
        var r := p.rules[i];
        if r.target != "direct" && r.target != "reject" && r.target != "pass" && r.target != "dns" {
          r := r.(target := BRIDGE);
        }
        rules := rules + [r];
      }
      rules := rules + [Rule(MatchAll, "", BRIDGE, false)];
    }
    return Some(rules);
  }

  // ---- two stages ----

  /** What Xray sees of a connection handed over SOCKS: the destination, no process, some source port. */
  ghost predicate Carried(c: Conn, d: Conn)
  {
    forall a: Atom :: !a.FromPort? ==> d(a) == (!a.ByProcess? && c(a))
  }

  ghost function TwoStage(windows: bool, xray: string, rules: seq<Rule>, c: Conn, d: Conn): string
  {
    var first := Decision(TunRules(windows, xray, rules), c);
    if first == BRIDGE then Decision(rules, d) else first
  }

  /** Targets the packet engine leaves to Xray. */
  predicate Bridged(windows: bool, target: string)
  {
    !windows || !BuiltIn(target)
  }

  /** A source-port rule and a later rule that it competes with ask for the same, or neither is bridged. */
  predicate Settled(windows: bool, rules: seq<Rule>, i: nat, j: nat)
    requires i < |rules| && j < |rules|
  {
    rules[i].target == rules[j].target || (!Bridged(windows, rules[i].target) && !Bridged(windows, rules[j].target))
  }

  /** No decision depends on the source port Xray happens to see. */
  predicate PortsSettled(windows: bool, rules: seq<Rule>)
    requires forall r :: r in rules ==> r.kind != OtherRule
  {
    forall i :: 0 <= i < |rules| && rules[i].kind == SrcPort && Live(rules, i) ==>
      && (forall j :: i < j < |rules| && rules[j].kind != Process && Live(rules, j) ==> Settled(windows, rules, i, j))
      && (FirstAll(rules) == |rules| ==> rules[i].target == "direct")
  }

  /** The packet engine decides built-in targets itself on Windows and hands on everything else. */
  lemma FirstStage(windows: bool, xray: string, rules: seq<Rule>, c: Conn)
    requires !c(ByProcess(xray))
    ensures Decision(TunRules(windows, xray, rules), c)
         == var n := Fired(rules, c);
            if n < |rules| && !Bridged(windows, rules[n].target) then rules[n].target else BRIDGE
  {
    hide First, Means;
    var rest := Rule(MatchAll, "", BRIDGE, false);
    Falls(rest, c);
    if windows {
      var own := [Rule(Process, xray, "direct", false)];
      var mapped := seq(|rules|, i requires 0 <= i < |rules| => Mapped(rules[i]));
      assert TunRules(windows, xray, rules) == own + (mapped + [rest]);
      OwnSocketsOnly(xray, c);
      DecisionInFront(own, mapped + [rest], c);
      DecisionInFront(mapped, [rest], c);
      MappedFires(rules, mapped, c);
    }
  }

  lemma OwnSocketsOnly(xray: string, c: Conn)
    requires !c(ByProcess(xray))
    ensures Fired([Rule(Process, xray, "direct", false)], c) == 1
  {
    assert !Hits([Rule(Process, xray, "direct", false)], c)[0];
  }

  lemma MappedFires(rules: seq<Rule>, mapped: seq<Rule>, c: Conn)
    requires |mapped| == |rules| && forall i :: 0 <= i < |rules| ==> mapped[i] == Mapped(rules[i])
    ensures Fired(mapped, c) == Fired(rules, c)
  {
    assert Hits(mapped, c) == Hits(rules, c);
  }

  /** Answers can differ only about the source port or the process. */
  lemma DifferingRule(c: Conn, d: Conn, r: Rule)
    requires Carried(c, d) && r.kind != OtherRule && Fires(r, c) != Fires(r, d)
    ensures r.kind == SrcPort || (r.kind == Process && Fires(r, c))
  {
    if r.kind != MatchAll {
      var a := Means(r);
      assert a.FromPort? || d(a) == (!a.ByProcess? && c(a));
      assert a.FromPort? ==> r.kind == SrcPort;
      assert a.ByProcess? ==> r.kind == Process;
    }
  }

  lemma ProcessRulesFallSilent(c: Conn, d: Conn, r: Rule)
    requires Carried(c, d) && r.kind == Process
    ensures !Fires(r, d)
  {
    assert !Means(r).FromPort?;
  }

  /** With settled ports the second stage repeats the decision of every bridged connection. */
  lemma SecondStage(windows: bool, rules: seq<Rule>, c: Conn, d: Conn)
    requires (forall r :: r in rules ==> r.kind != OtherRule && Splittable(windows, r))
    requires PortsSettled(windows, rules) && Carried(c, d)
    requires var n := Fired(rules, c); n < |rules| ==> Bridged(windows, rules[n].target)
    ensures Decision(rules, d) == Decision(rules, c)
  {
    hide Fired, Fires, Live, Carried, FirstAll;
    var n, m := Fired(rules, c), Fired(rules, d);
    if n < |rules| { DecidingRuleIsLive(rules, c); }
    if m < |rules| { DecidingRuleIsLive(rules, d); }
    if n < m {
      NotYet(rules, d, n);
      DifferingRule(c, d, rules[n]);
      assert rules[n].kind == SrcPort;
      if m < |rules| {
        if rules[m].kind == Process { ProcessRulesFallSilent(c, d, rules[m]); }
        assert Settled(windows, rules, n, m);
      } else {
        NothingCatchesAll(rules, d);
      }
    } else if m < n {
      NotYet(rules, c, m);
      DifferingRule(c, d, rules[m]);
      assert rules[m].kind == SrcPort;
      if n < |rules| {
        assert Settled(windows, rules, m, n);
      } else {
        NothingCatchesAll(rules, c);
      }
    }
  }

  // ---- and only then ----

  /** Two connections that differ in source ports only. */
  lemma OtherPort(a: set<Atom>, b: set<Atom>)
    requires forall x :: (x in a || x in b) && !x.FromPort? ==> x in a && x in b && !x.ByProcess?
    ensures Carried(Yes(a), Yes(b))
  {
  }

  /** Answers that meet a source-port rule and a later one, and answers that meet the later one alone. */
  lemma PortAnswers(port: Rule, later: Rule) returns (own: set<Atom>, other: set<Atom>)
    requires port.kind == SrcPort && Readable(port)
    requires later.kind != OtherRule && later.kind != Process && Readable(later)
    ensures Real(Yes(own)) && Real(Yes(other)) && Carried(Yes(own), Yes(other)) && Carried(Yes(other), Yes(own))
    ensures other == if later.kind == MatchAll then {} else {Means(later)}
    ensures own == {Means(port)} + if later.kind == SrcPort then {} else other
    ensures forall x :: x in own || x in other ==> !x.ByProcess?
  {
    ReadableMeans(port);
    other := if later.kind == MatchAll then {} else {Means(later)};
    own := {Means(port)} + if later.kind == SrcPort then {} else other;
    if later.kind != MatchAll { ReadableMeans(later); }
    hide Means, Real, Carried;
    DifferentFieldsAreReal(own);
    DifferentFieldsAreReal(other);
    OtherPort(own, other);
    OtherPort(other, own);
  }

  /** A competing pair of rules gives a connection that the split decides differently. */
  lemma PairSplits(windows: bool, xray: string, rules: seq<Rule>, i: nat, j: nat) returns (c: Conn, d: Conn)
    requires (forall r :: r in rules ==> r.kind != OtherRule && Readable(r)) && i < j < |rules|
    requires rules[i].kind == SrcPort && Live(rules, i) && rules[j].kind != Process && Live(rules, j)
    requires !Settled(windows, rules, i, j)
    ensures Real(c) && Real(d) && !c(ByProcess(xray)) && Carried(c, d)
    ensures TwoStage(windows, xray, rules, c, d) != Decision(rules, c)
  {
    assert rules[i] in rules && rules[j] in rules;
    hide First, Means, Carried, FirstAll, Real, Readable;
    var own, other := PortAnswers(rules[i], rules[j]);
    FiresAt(rules, i, own);
    FiresAt(rules, j, other);
    c, d := if Bridged(windows, rules[i].target) then Yes(own) else Yes(other),
            if Bridged(windows, rules[i].target) then Yes(other) else Yes(own);
    FirstStage(windows, xray, rules, c);
  }

  lemma DefaultSplits(windows: bool, xray: string, rules: seq<Rule>, i: nat) returns (c: Conn, d: Conn)
    requires (forall r :: r in rules ==> r.kind != OtherRule && Readable(r)) && i < |rules|
    requires rules[i].kind == SrcPort && Live(rules, i) && FirstAll(rules) == |rules| && rules[i].target != "direct"
    ensures Real(c) && Real(d) && !c(ByProcess(xray)) && Carried(c, d)
    ensures TwoStage(windows, xray, rules, c, d) != Decision(rules, c)
  {
    assert rules[i] in rules;
    var a := Means(rules[i]);
    ReadableMeans(rules[i]);
    DifferentFieldsAreReal({a});
    DifferentFieldsAreReal({});
    OtherPort({}, {a});
    hide First, Means, Carried, FirstAll, Real;
    FiresAt(rules, i, {a});
    FiresNowhere(rules);
    c, d := Yes({}), Yes({a});
    FirstStage(windows, xray, rules, c);
  }

  ghost predicate KeepsOutcomes(windows: bool, xray: string, rules: seq<Rule>)
  {
    forall c: Conn, d: Conn :: Real(c) && Real(d) && !c(ByProcess(xray)) && Carried(c, d) ==>
      TwoStage(windows, xray, rules, c, d) == Decision(rules, c)
  }

  /** Unsettled ports give a connection that the split decides differently. */
  lemma UnsettledSplits(windows: bool, xray: string, rules: seq<Rule>) returns (c: Conn, d: Conn)
    requires forall r :: r in rules ==> r.kind != OtherRule && Readable(r)
    requires !PortsSettled(windows, rules)
    ensures Real(c) && Real(d) && !c(ByProcess(xray)) && Carried(c, d)
    ensures TwoStage(windows, xray, rules, c, d) != Decision(rules, c)
  {
    var i :| 0 <= i < |rules| && rules[i].kind == SrcPort && Live(rules, i)
      && !((forall j :: i < j < |rules| && rules[j].kind != Process && Live(rules, j) ==> Settled(windows, rules, i, j))
           && (FirstAll(rules) == |rules| ==> rules[i].target == "direct"));
    hide Decision, TwoStage, Live, Carried, FirstAll, Readable, Real;
    if j :| i < j < |rules| && rules[j].kind != Process && Live(rules, j) && !Settled(windows, rules, i, j) {
      c, d := PairSplits(windows, xray, rules, i, j);
    } else {
      c, d := DefaultSplits(windows, xray, rules, i);
    }
  }

  lemma AcceptedRules(windows: bool, p: Plan, stack: string)
    requires Accepts(windows, p, stack)
    ensures forall r :: r in p.rules ==> r.kind != OtherRule && Readable(r) && Splittable(windows, r)
  {
    assert forall r :: r in p.rules ==> GoodRule(p, r);
  }

  /**
   * The split gives every real connection not opened by Xray itself its original outcome exactly when
   * no decision hangs on the source port, which is lost on the way through SOCKS.
   */
  lemma SplitKeepsOutcomes(windows: bool, xray: string, p: Plan, stack: string)
    requires Accepts(windows, p, stack)
    ensures (forall r :: r in p.rules ==> r.kind != OtherRule)
    ensures KeepsOutcomes(windows, xray, p.rules) <==> PortsSettled(windows, p.rules)
  {
    var rules := p.rules;
    AcceptedRules(windows, p, stack);
    hide Accepts, Decision, TwoStage, PortsSettled, Carried, Readable, Real;
    if PortsSettled(windows, rules) {
      forall c: Conn, d: Conn | !c(ByProcess(xray)) && Carried(c, d)
        ensures TwoStage(windows, xray, rules, c, d) == Decision(rules, c)
      {
        BothStages(windows, xray, rules, c, d);
      }
    } else {
      var c, d := UnsettledSplits(windows, xray, rules);
    }
  }

  lemma BothStages(windows: bool, xray: string, rules: seq<Rule>, c: Conn, d: Conn)
    requires (forall r :: r in rules ==> r.kind != OtherRule && Splittable(windows, r))
    requires PortsSettled(windows, rules) && Carried(c, d) && !c(ByProcess(xray))
    ensures TwoStage(windows, xray, rules, c, d) == Decision(rules, c)
  {
    hide Fired, Live, Carried, FirstAll;
    FirstStage(windows, xray, rules, c);
    var n := Fired(rules, c);
    if n < |rules| && !Bridged(windows, rules[n].target) {
      assert rules[n].target != BRIDGE;
    } else {
      SecondStage(windows, rules, c, d);
    }
  }

  /** Without source-port rules nothing is lost. */
  lemma DestinationRulesSurvive(windows: bool, rules: seq<Rule>)
    requires forall r :: r in rules ==> r.kind != OtherRule && r.kind != SrcPort
    ensures PortsSettled(windows, rules)
  {
    hide Live;
    assert forall i :: 0 <= i < |rules| ==> rules[i] in rules;
  }

  /** A plan that rejects one source port and sends the rest through a server. */
  const LOST := Plan([Outbound("a", "A")], [], [Rule(SrcPort, "80", "reject", false), Rule(MatchAll, "", "a", false)], true)

  lemma PortEighty()
    ensures TrimSpace("80") == "80" && Atoi("80").Some?
  {
    assert "80"[..1] == "8";
    assert Digits("8") == Some(8);
  }

  lemma LostIsAccepted(windows: bool)
    ensures Accepts(windows, LOST, "")
  {
    PortEighty();
    hide Atoi, TrimSpace;
    var g := GraphOf(LOST.groups);
    assert LOST.outbounds[0] in LOST.outbounds;
    assert Ids(LOST.outbounds) == {"a"} && Names(LOST.groups) == {};
    assert STACKS[0] == "";
    forall c ensures !GroupGraph.Cycle(g, c) {
      assert GroupGraph.Walk(g, c) && |c| > 1 ==> GroupGraph.Edge(g, c[0], c[0 + 1]);
    }
  }

  /** It is accepted on both systems, and some connection gets another outcome from the two stages. */
  lemma SourcePortRuleIsLost(windows: bool, xray: string) returns (c: Conn, d: Conn)
    ensures Accepts(windows, LOST, "")
    ensures Real(c) && Real(d) && !c(ByProcess(xray)) && Carried(c, d)
    ensures TwoStage(windows, xray, LOST.rules, c, d) != Decision(LOST.rules, c)
  {
    LostIsAccepted(windows);
    assert forall r :: r in LOST.rules ==> GoodRule(LOST, r);
    hide WellFormed, Decision, GoodRule;
    var rules := LOST.rules;
    assert Live(rules, 0) && Live(rules, 1);
    assert !Settled(windows, rules, 0, 1);
    c, d := PairSplits(windows, xray, rules, 0, 1);
  }
}
