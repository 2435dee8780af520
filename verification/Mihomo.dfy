/** The mihomo rule list: one comma-separated line of text per plan rule. */
module Mihomo {
  import opened Text
  import opened Plans
  import opened Routing

  // ---- rendering ----

  function KindName(r: Rule): Option<string>
  {
    match r.kind
    case Domain => Some("DOMAIN")
    case DomainSuffix => Some("DOMAIN-SUFFIX")
    case DomainKeyword => Some("DOMAIN-KEYWORD")
    case IpCidr => Some(if ':' in r.value then "IP-CIDR6" else "IP-CIDR")
    case IpSuffix => Some("IP-SUFFIX")
    case GeoIp => Some("GEOIP")
    case GeoSite => Some("GEOSITE")
    case RuleSet => Some("RULE-SET")
    case Port => Some("DST-PORT")
    case SrcPort => Some("SRC-PORT")
    case Process => Some("PROCESS-NAME")
    case Protocol => Some("NETWORK")
    case MatchAll => None
    case OtherRule => None
  }

  function TargetName(byId: map<string, string>, target: string): Option<string>
  {
    if target == "direct" then Some("DIRECT")
    else if target == "reject" then Some("REJECT")
    else if target == "pass" then Some("ACCEPT")
    else if target == "dns" then Some("NO-ADAPT")
    else if target in byId then Some(byId[target])
    else None
  }

  predicate Unresolved(r: Rule)
  {
    r.noResolve && (r.kind == IpCidr || r.kind == IpSuffix || r.kind == GeoIp)
  }

  predicate Carries(byId: map<string, string>, r: Rule)
  {
    TargetName(byId, r.target).Some? && (r.kind == MatchAll || KindName(r).Some?)
  }

  function Rendered(kind: string, value: string, target: string, unresolved: bool): string
  {
    kind + "," + value + "," + target + if unresolved then ",no-resolve" else ""
  }

  function LineOf(byId: map<string, string>, r: Rule): string
    requires Carries(byId, r)
  {
    var target := TargetName(byId, r.target).value;
    if r.kind == MatchAll then "MATCH," + target
    else Rendered(KindName(r).value, r.value, target, Unresolved(r))
  }

  predicate Accepts(byId: map<string, string>, rules: seq<Rule>)
  {
    forall i :: 0 <= i < |rules| ==> Carries(byId, rules[i])
  }

  predicate NeedsDefault(rules: seq<Rule>)
  {
    rules == [] || rules[|rules| - 1].kind != MatchAll
  }

  /** Every rule in its own line, and a last line for the rest if no catch-all ends the list. */
  function Lines(byId: map<string, string>, rules: seq<Rule>): (lines: seq<string>)
    requires Accepts(byId, rules)
  {
    seq(|rules|, i requires 0 <= i < |rules| => LineOf(byId, rules[i]))
    + if NeedsDefault(rules) then ["MATCH,DIRECT"] else []
  }

  lemma OnlyCatchAllsSayMatch(byId: map<string, string>, r: Rule)
    requires Carries(byId, r)
    ensures HasPrefix(LineOf(byId, r), "MATCH,") <==> r.kind == MatchAll
  {
    if r.kind != MatchAll {
      var line := LineOf(byId, r);
      assert line[0] == KindName(r).value[0];
      assert KindName(r).value[0] != 'M';
    }
  }

  lemma LineIs(byId: map<string, string>, r: Rule)
    requires Carries(byId, r)
    ensures r.kind == MatchAll ==> LineOf(byId, r) == "MATCH," + TargetName(byId, r.target).value
    ensures r.kind != MatchAll ==>
              LineOf(byId, r) == KindName(r).value + "," + r.value + "," + TargetName(byId, r.target).value
                                 + if Unresolved(r) then ",no-resolve" else ""
  {
    hide KindName, TargetName;
  }

  method BuildRules(rules: seq<Rule>, byId: map<string, string>) returns (out: Option<seq<string>>)
    ensures out.Some? <==> Accepts(byId, rules)
    ensures out.Some? ==> out.value == Lines(byId, rules)
  {
    hide KindName, TargetName, HasPrefix, LineOf;
    var lines: seq<string> := [];
    for i := 0 to |rules|
      invariant |lines| == i && forall k :: 0 <= k < i ==> Carries(byId, rules[k]) && lines[k] == LineOf(byId, rules[k])
    {
      var r := rules[i];
      var target := TargetName(byId, r.target);
      if r.kind == MatchAll {
        if target.None? { return None; }
        LineIs(byId, r);
        lines := lines + ["MATCH," + target.value];
        continue;
      }
      var kind := KindName(r);
      if kind.None? || target.None? { return None; }
      LineIs(byId, r);
      var line := kind.value + "," + r.value + "," + target.value;
      if Unresolved(r) { line := line + ",no-resolve"; }
      assert line == LineOf(byId, r) by { Whole(kind.value + "," + r.value + "," + target.value); }
      lines := lines + [line];
    }
    if |rules| > 0 { OnlyCatchAllsSayMatch(byId, rules[|rules| - 1]); }
    if |lines| == 0 || !HasPrefix(lines[|lines| - 1], "MATCH,") {
      lines := lines + ["MATCH,DIRECT"];
    }
    return Some(lines);
  }

  // ---- reading ----

  predicate NoComma(s: string) { ',' !in s }

  /** The text between commas. */
  function Fields(s: string): (f: seq<string>)
    ensures |f| >= 1 && forall i :: 0 <= i < |f| ==> NoComma(f[i])
  {
    if s == [] then [""]
    else
      var rest := Fields(s[1..]);
      if s[0] == ',' then [""] + rest else [[s[0]] + rest[0]] + rest[1..]
  }

  datatype Parsed = All(target: string) | When(kind: string, value: string, target: string, unresolved: bool)

  /** How mihomo reads a line: kind, value, target and parameters, split at the commas. */
  function Parse(line: string): Option<Parsed>
  {
    var f := Fields(line);
    if |f| == 2 && f[0] == "MATCH" then Some(All(f[1]))
    else if |f| >= 3 then Some(When(f[0], f[1], f[2], "no-resolve" in f[3..]))
    else None
  }

  lemma {:induction false} FirstField(a: string, b: string)
    requires NoComma(a)
    ensures Fields(a + "," + b) == [a] + Fields(b)
  {
    var s := a + "," + b;
    if a == [] {
      assert s[1..] == b;
    } else {
      assert a[0] in a && s[1..] == a[1..] + "," + b;
      assert forall i :: 0 <= i < |a| - 1 ==> a[1..][i] in a;
      FirstField(a[1..], b);
      assert [a[0]] + a[1..] == a;
    }
  }

  lemma {:induction false} OneField(a: string)
    requires NoComma(a)
    ensures Fields(a) == [a]
  {
    if a != [] {
      assert a[0] in a && forall i :: 0 <= i < |a| - 1 ==> a[1..][i] in a;
      OneField(a[1..]);
      assert [a[0]] + a[1..] == a;
    }
  }

  lemma LineFields(kind: string, value: string, target: string, unresolved: bool)
    requires NoComma(kind) && NoComma(value) && NoComma(target)
    ensures Fields(Rendered(kind, value, target, unresolved))
         == [kind, value, target] + if unresolved then ["no-resolve"] else []
  {
    hide Fields;
    var tail := target + if unresolved then ",no-resolve" else "";
    var mid := value + "," + tail;
    assert Rendered(kind, value, target, unresolved) == kind + "," + mid;
    FirstField(kind, mid);
    FirstField(value, tail);
    OneField("no-resolve");
    if unresolved {
      FirstField(target, "no-resolve");
      assert tail == target + "," + "no-resolve";
    } else {
      OneField(target);
      assert tail == target;
    }
  }

  /** A line is read back as it was written exactly when neither value nor target holds a comma. */
  lemma LineReadsBack(kind: string, value: string, target: string, unresolved: bool)
    requires NoComma(kind)
    ensures Parse(Rendered(kind, value, target, unresolved)) == Some(When(kind, value, target, unresolved))
       <==> NoComma(value) && NoComma(target)
  {
    if NoComma(value) && NoComma(target) {
      LineFields(kind, value, target, unresolved);
      var f := Fields(Rendered(kind, value, target, unresolved));
      assert f[3..] == if unresolved then ["no-resolve"] else [];
    }
  }

  lemma CatchAllReadsBack(target: string)
    ensures Parse("MATCH," + target) == Some(All(target)) <==> NoComma(target)
  {
    FirstField("MATCH", target);
    assert "MATCH," + target == "MATCH" + "," + target;
    if NoComma(target) { OneField(target); }
  }

  /** What mihomo should read a rule's line as. */
  function Meant(byId: map<string, string>, r: Rule): Parsed
    requires Carries(byId, r)
  {
    var target := TargetName(byId, r.target).value;
    if r.kind == MatchAll then All(target) else When(KindName(r).value, r.value, target, Unresolved(r))
  }

  /** A rendered list is read as it was meant exactly when no value and no target name holds a comma. */
  lemma ListReadsBack(byId: map<string, string>, rules: seq<Rule>)
    requires Accepts(byId, rules)
    ensures (forall i :: 0 <= i < |rules| ==> Parse(Lines(byId, rules)[i]) == Some(Meant(byId, rules[i]))) <==>
            (forall i :: 0 <= i < |rules| ==> NoComma(TargetName(byId, rules[i].target).value)
                                              && (rules[i].kind == MatchAll || NoComma(rules[i].value)))
  {
    hide Parse, Rendered, NoComma, TargetName, KindName;
    forall i | 0 <= i < |rules|
      ensures Parse(Lines(byId, rules)[i]) == Some(Meant(byId, rules[i])) <==>
              NoComma(TargetName(byId, rules[i].target).value) && (rules[i].kind == MatchAll || NoComma(rules[i].value))
    {
      var r := rules[i];
      var target := TargetName(byId, r.target).value;
      if r.kind == MatchAll {
        CatchAllReadsBack(target);
      } else {
        KindsHaveNoComma(r);
        LineReadsBack(KindName(r).value, r.value, target, Unresolved(r));
      }
    }
  }

  /** A keyword with a comma is cut short and its tail becomes the target. */
  lemma CommaInValueMisreads()
    ensures Parse(Rendered("DOMAIN-KEYWORD", "a,b", "DIRECT", false)) == Some(When("DOMAIN-KEYWORD", "a", "b", false))
  {
    hide Fields;
    var line := Rendered("DOMAIN-KEYWORD", "a,b", "DIRECT", false);
    assert line == "DOMAIN-KEYWORD" + "," + ("a" + "," + ("b" + "," + "DIRECT"));
    FirstField("DOMAIN-KEYWORD", "a" + "," + ("b" + "," + "DIRECT"));
    FirstField("a", "b" + "," + "DIRECT");
    FirstField("b", "DIRECT");
    OneField("DIRECT");
    assert Fields(line) == ["DOMAIN-KEYWORD", "a", "b", "DIRECT"];
    assert Fields(line)[3..] == ["DIRECT"];
  }

  function Condition(kind: string, value: string): Option<Atom>
  {
    if kind == "DOMAIN" then Some(DomainIs(value))
    else if kind == "DOMAIN-SUFFIX" then Some(DomainUnder(value))
    else if kind == "DOMAIN-KEYWORD" then Some(DomainHas(value))
    else if kind == "IP-CIDR" || kind == "IP-CIDR6" then Some(InCidr(value))
    else if kind == "IP-SUFFIX" then Some(IpEnds(value))
    else if kind == "GEOIP" then Some(Country(Lower(value)))
    else if kind == "GEOSITE" then Some(InCategory(Lower(value)))
    else if kind == "DST-PORT" then Some(ToPort(Atoi(value)))
    else if kind == "SRC-PORT" then Some(FromPort(Atoi(value)))
    else if kind == "PROCESS-NAME" then Some(ByProcess(value))
    else if kind == "NETWORK" then Some(OverNetwork(Lower(value)))
    else None
  }

  predicate Holds(line: string, c: Conn)
  {
    match Parse(line)
    case None => false
    case Some(All(_)) => true
    case Some(When(kind, value, _, _)) => match Condition(kind, value) case None => false case Some(a) => c(a)
  }

  function LineHits(lines: seq<string>, c: Conn): (h: seq<bool>)
    ensures |h| == |lines|
  {
    seq(|lines|, i requires 0 <= i < |lines| => Holds(lines[i], c))
  }

  /** Where mihomo sends a connection. */
  function Outcome(lines: seq<string>, c: Conn): Option<string>
  {
    var at := First(LineHits(lines, c));
    if at == |lines| then None
    else match Parse(lines[at]) case None => None case Some(parsed) => Some(parsed.target)
  }

  /** Up to the first catch-all, values are free of commas and no rule names a rule set. */
  predicate Plain(rules: seq<Rule>)
  {
    forall i :: 0 <= i < |rules| && i < FirstAll(rules) ==> NoComma(rules[i].value) && rules[i].kind != RuleSet
  }

  lemma KindsHaveNoComma(r: Rule)
    requires KindName(r).Some?
    ensures NoComma(KindName(r).value)
  {
  }

  lemma LineHolds(byId: map<string, string>, r: Rule, c: Conn)
    requires Carries(byId, r) && NoComma(TargetName(byId, r.target).value)
    requires r.kind == MatchAll || (NoComma(r.value) && r.kind != RuleSet)
    ensures Holds(LineOf(byId, r), c) <==> Fires(r, c)
    ensures Parse(LineOf(byId, r)).Some? && Some(Parse(LineOf(byId, r)).value.target) == TargetName(byId, r.target)
  {
    hide Parse, Rendered, NoComma, TargetName, Lower, Atoi, Country;
    var target := TargetName(byId, r.target).value;
    if r.kind == MatchAll {
      CatchAllReadsBack(target);
    } else {
      KindsHaveNoComma(r);
      LineReadsBack(KindName(r).value, r.value, target, Unresolved(r));
    }
  }

  lemma TargetsHaveNoComma(byId: map<string, string>, target: string)
    requires TargetName(byId, target).Some? && forall id :: id in byId ==> NoComma(byId[id])
    ensures NoComma(TargetName(byId, target).value)
  {
  }

  /** mihomo sends every connection where the first matching plan rule asks for, else direct. */
  lemma SameRuleFires(byId: map<string, string>, rules: seq<Rule>, c: Conn)
    requires Accepts(byId, rules) && Plain(rules) && forall id :: id in byId ==> NoComma(byId[id])
    ensures First(LineHits(Lines(byId, rules), c)) == Fired(rules, c)
    ensures Outcome(Lines(byId, rules), c) == TargetName(byId, Decision(rules, c))
  {
    hide Parse, Holds, First, FirstAll, KindName, TargetName, NoComma, LineOf;
    var lines, n := Lines(byId, rules), Fired(rules, c);
    CatchAllEndsTheList(rules, c);
    forall i | 0 <= i <= FirstAll(rules) && i < |rules|
      ensures Holds(lines[i], c) <==> Fires(rules[i], c)
      ensures Parse(lines[i]).Some? && Some(Parse(lines[i]).value.target) == TargetName(byId, rules[i].target)
    {
      TargetsHaveNoComma(byId, rules[i].target);
      LineHolds(byId, rules[i], c);
    }
    forall i | 0 <= i < n ensures !LineHits(lines, c)[i] { assert !Hits(rules, c)[i]; }
    if n < |rules| {
      assert Hits(rules, c)[n];
      assert LineHits(lines, c)[n] == Holds(lines[n], c);
    } else {
      DefaultHolds(byId, rules, c);
      assert LineHits(lines, c)[n];
    }
  }

  lemma DefaultHolds(byId: map<string, string>, rules: seq<Rule>, c: Conn)
    requires Accepts(byId, rules) && Fired(rules, c) == |rules|
    ensures var lines := Lines(byId, rules);
            |lines| == |rules| + 1 && Holds(lines[|rules|], c) && Parse(lines[|rules|]) == Some(All("DIRECT"))
    ensures TargetName(byId, "direct") == Some("DIRECT")
  {
    hide First, Parse, LineOf;
    CatchAllReadsBack("DIRECT");
    assert |rules| > 0 ==> !Hits(rules, c)[|rules| - 1];
    assert NeedsDefault(rules);
    assert "MATCH," + "DIRECT" == "MATCH,DIRECT";
  }

  /** What mihomo does with its own names. */
  function Does(name: string): Option<string>
  {
    if name == "DIRECT" then Some("direct")
    else if name == "REJECT" then Some("reject")
    else if name == "ACCEPT" then Some("pass")
    else if name == "NO-ADAPT" then Some("dns")
    else None
  }

  /** A connection the plan sends to a built-in target meets the same fate in mihomo. */
  lemma BuiltInFate(byId: map<string, string>, rules: seq<Rule>, c: Conn)
    requires Accepts(byId, rules) && Plain(rules) && (forall id :: id in byId ==> NoComma(byId[id]))
    requires BuiltIn(Decision(rules, c))
    ensures Outcome(Lines(byId, rules), c).Some? && Does(Outcome(Lines(byId, rules), c).value) == Some(Decision(rules, c))
  {
    hide Outcome, Lines, Decision, Plain, Accepts;
    SameRuleFires(byId, rules, c);
  }
}
