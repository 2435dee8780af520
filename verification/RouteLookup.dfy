/** The policy rules a TUN session installs, and how the kernel walks them. */
module RouteLookup {
  import opened Text
  import opened PolicyRules

  datatype Proto = Tcp | Udp | OtherProto

  datatype Table = TunTable | MainTable

  datatype Action = Lookup(table: Table, suppress: Option<nat>) | Goto(to: nat)

  /** A rule: its place, the selectors Sora uses (None matches anything) and what it does. */
  datatype Policy = Policy(priority: nat, src: Option<string>, local: bool, oif: Option<string>, uid: Option<nat>,
                           dns: Option<Proto>, act: Action)

  datatype Packet = Packet(src: string, local: bool, oif: Option<string>, uid: nat, proto: Proto, port: nat)

  const RETURN := 5333
  const ENGINE := 5334
  const DNS := 5335
  const DNS_BYPASS := 5336
  const BYPASS := 5337
  const MAIN_FIRST := 5338
  const TUNNEL := 5339

  // ---- the rules of one address family ----

  const TO_TUN := Lookup(TunTable, None)
  const TO_MAIN := Lookup(MainTable, None)

  function RouteSteps(source: string): seq<Policy>
  {
    [Policy(RETURN, Some(source), false, None, None, None, TO_TUN),
     Policy(DNS, None, true, None, None, Some(Udp), TO_TUN),
     Policy(DNS, None, true, None, None, Some(Tcp), TO_TUN),
     Policy(DNS_BYPASS, None, true, None, None, Some(Udp), Goto(MAIN_FIRST)),
     Policy(DNS_BYPASS, None, true, None, None, Some(Tcp), Goto(MAIN_FIRST)),
     Policy(MAIN_FIRST, None, true, None, None, None, Lookup(MainTable, Some(1))),
     Policy(TUNNEL, None, true, None, None, None, TO_TUN)]
  }

  function BoundRule(device: string): Policy { Policy(BYPASS, None, false, Some(device), None, None, TO_MAIN) }

  function SourceRule(address: string): Policy { Policy(BYPASS, Some(address), false, None, None, None, TO_MAIN) }

  function EngineRule(uid: nat): Policy { Policy(ENGINE, None, false, None, Some(uid), None, TO_MAIN) }

  datatype Address = Address(text: string, v4: bool)

  datatype Interface = Interface(name: string, loopback: bool, pointToPoint: bool, addresses: seq<Address>)

  /** The source rules of the addresses of one family. */
  function SourceRules(addresses: seq<Address>, v4: bool): seq<Policy>
  {
    if addresses == [] then []
    else
      var front, last := SourceRules(addresses[..|addresses| - 1], v4), addresses[|addresses| - 1];
      if last.v4 == v4 then front + [SourceRule(last.text)] else front
  }

  /** The bypasses of one interface: its bound sockets and the given addresses. */
  function BypassSteps(device: string, addresses: seq<Address>, v4: bool): seq<Policy>
  {
    [BoundRule(device)] + SourceRules(addresses, v4)
  }

  /** The bypasses of every interface but the TUN device and the loopback. */
  function AllBypasses(interfaces: seq<Interface>, tun: string, v4: bool): seq<Policy>
  {
    if interfaces == [] then []
    else
      var front, i := AllBypasses(interfaces[..|interfaces| - 1], tun, v4), interfaces[|interfaces| - 1];
      if i.name == tun || i.loopback then front
      else front + BypassSteps(i.name, if i.pointToPoint then i.addresses else [], v4)
  }

  /** A bound socket of a foreign interface, or a source address of a foreign tunnel. */
  predicate Bypasses(i: Interface, tun: string, v4: bool, r: Policy)
  {
    && i.name != tun && !i.loopback
    && (r == BoundRule(i.name) || (i.pointToPoint && exists k :: 0 <= k < |i.addresses| && i.addresses[k].v4 == v4 && r == SourceRule(i.addresses[k].text)))
  }

  lemma {:induction false} SourceRulesAre(addresses: seq<Address>, v4: bool, r: Policy)
    ensures r in SourceRules(addresses, v4) <==> exists k :: 0 <= k < |addresses| && addresses[k].v4 == v4 && r == SourceRule(addresses[k].text)
  {
    if addresses != [] {
      var front := addresses[..|addresses| - 1];
      SourceRulesAre(front, v4, r);
      assert forall k :: 0 <= k < |front| ==> front[k] == addresses[k];
    }
  }

  /** Exactly the foreign interfaces' bound sockets and point-to-point addresses are exempted. */
  lemma {:induction false} BypassesAre(interfaces: seq<Interface>, tun: string, v4: bool, r: Policy)
    ensures r in AllBypasses(interfaces, tun, v4) <==> exists n :: 0 <= n < |interfaces| && Bypasses(interfaces[n], tun, v4, r)
    ensures r in AllBypasses(interfaces, tun, v4) ==> r.priority == BYPASS && r.act == TO_MAIN
  {
    if interfaces != [] {
      var front, last := interfaces[..|interfaces| - 1], interfaces[|interfaces| - 1];
      BypassesAre(front, tun, v4, r);
      SourceRulesAre(last.addresses, v4, r);
      SourceRulesAre([], v4, r);
      hide Bypasses;
      assert forall n :: 0 <= n < |front| ==> front[n] == interfaces[n];
      LastBypasses(last, tun, v4, r);
    }
  }

  lemma LastBypasses(i: Interface, tun: string, v4: bool, r: Policy)
    ensures Bypasses(i, tun, v4, r) <==> i.name != tun && !i.loopback && r in BypassSteps(i.name, if i.pointToPoint then i.addresses else [], v4)
    ensures Bypasses(i, tun, v4, r) ==> r.priority == BYPASS && r.act == TO_MAIN
  {
    SourceRulesAre(i.addresses, v4, r);
  }

  /** Who is on the network: the TUN source address, the engine's user and the interfaces. */
  datatype Host = Host(source: string, uid: nat, tun: string, v4: bool, interfaces: seq<Interface>)

  /** Everything route installs, in order. */
  function Steps(h: Host): seq<Policy>
  {
    AllBypasses(h.interfaces, h.tun, h.v4) + [EngineRule(h.uid)] + RouteSteps(h.source)
  }

  // ---- the kernel's list ----

  /** A new rule goes behind the rules of its own priority. */
  function Insert(rules: seq<Policy>, r: Policy): (out: seq<Policy>)
    ensures forall x :: x in out <==> x == r || x in rules
  {
    if rules == [] then [r]
    else if rules[0].priority > r.priority then [r] + rules
    else [rules[0]] + Insert(rules[1..], r)
  }

  function InsertAll(rules: seq<Policy>, steps: seq<Policy>): (out: seq<Policy>)
    ensures forall x :: x in out <==> x in steps || x in rules
  {
    if steps == [] then rules
    else
      assert steps == steps[..|steps| - 1] + [steps[|steps| - 1]];
      Insert(InsertAll(rules, steps[..|steps| - 1]), steps[|steps| - 1])
  }

  ghost predicate Sorted(rules: seq<Policy>)
  {
    forall i, j :: 0 <= i < j < |rules| ==> rules[i].priority <= rules[j].priority
  }

  lemma {:induction false} InsertKeepsSorted(rules: seq<Policy>, r: Policy)
    requires Sorted(rules)
    ensures Sorted(Insert(rules, r))
  {
    if rules != [] && rules[0].priority <= r.priority {
      InsertKeepsSorted(rules[1..], r);
      var out := Insert(rules[1..], r);
      assert forall x :: x in rules[1..] ==> x.priority >= rules[0].priority;
      assert forall i :: 0 <= i < |out| ==> out[i] in out && out[i].priority >= rules[0].priority;
    }
  }

  lemma {:induction false} InstallKeepsSorted(rules: seq<Policy>, steps: seq<Policy>)
    requires Sorted(rules)
    ensures Sorted(InsertAll(rules, steps))
  {
    if steps != [] {
      InstallKeepsSorted(rules, steps[..|steps| - 1]);
      InsertKeepsSorted(InsertAll(rules, steps[..|steps| - 1]), steps[|steps| - 1]);
    }
  }

  // ---- the walk ----

  predicate Matches(r: Policy, p: Packet)
  {
    && (r.src.Some? ==> r.src.value == p.src)
    && (r.local ==> p.local)
    && (r.oif.Some? ==> p.oif == r.oif)
    && (r.uid.Some? ==> p.uid == r.uid.value)
    && (r.dns.Some? ==> p.proto == r.dns.value && p.port == 53)
  }

  /** The first rule of a priority, or the end of the list. */
  function Landing(rules: seq<Policy>, priority: nat): (n: nat)
    ensures n <= |rules|
    ensures forall i :: 0 <= i < n ==> rules[i].priority != priority
    ensures n < |rules| ==> rules[n].priority == priority
  {
    if rules == [] || rules[0].priority == priority then 0 else 1 + Landing(rules[1..], priority)
  }

  /** Where the walk goes after a rule that did not end it: a jump is forward or not taken. */
  function Next(rules: seq<Policy>, i: nat, p: Packet): (n: nat)
    requires i < |rules|
    ensures i < n <= |rules|
  {
    var r := rules[i];
    if Matches(r, p) && r.act.Goto? && i < Landing(rules, r.act.to) < |rules| then Landing(rules, r.act.to) else i + 1
  }

  /** The rule answers: it matches, looks a table up, and the lookup finds a route. */
  predicate Answers(rules: seq<Policy>, i: nat, p: Packet, found: nat -> bool)
    requires i < |rules|
  {
    Matches(rules[i], p) && rules[i].act.Lookup? && found(i)
  }

  /** The rules the kernel looks at, in order; the last one answers or the list ends. */
  function Visited(rules: seq<Policy>, i: nat, p: Packet, found: nat -> bool): (v: seq<nat>)
    ensures forall k :: 0 <= k < |v| ==> i <= v[k] < |rules|
    decreases |rules| - i
  {
    if i >= |rules| then []
    else if Answers(rules, i, p, found) then [i]
    else [i] + Visited(rules, Next(rules, i, p), p, found)
  }

  /** The rule that answers. */
  function Answer(rules: seq<Policy>, i: nat, p: Packet, found: nat -> bool): Option<nat>
    decreases |rules| - i
  {
    if i >= |rules| then None
    else if Answers(rules, i, p, found) then Some(i)
    else Answer(rules, Next(rules, i, p), p, found)
  }

  /** Other owners' rules keep out of the reserved priorities and do not jump into the bypasses. */
  ghost predicate Polite(base: seq<Policy>)
  {
    && Sorted(base)
    && forall r :: r in base ==> !(RETURN <= r.priority <= TUNNEL) && (r.act.Goto? ==> r.act.to != BYPASS)
  }

  /** What is needed of an installed list. */
  ghost predicate Installed(rules: seq<Policy>, h: Host)
  {
    && Sorted(rules)
    && (forall r :: r in Steps(h) ==> r in rules)
    && (forall r :: r in rules && RETURN <= r.priority <= TUNNEL ==> r in Steps(h))
    && (forall r :: r in rules && r.act.Goto? ==> r.act.to != BYPASS)
  }

  lemma InstallGives(base: seq<Policy>, h: Host)
    requires Polite(base)
    ensures Installed(InsertAll(base, Steps(h)), h)
  {
    hide Steps, InsertAll, Sorted;
    InstallKeepsSorted(base, Steps(h));
    forall r | r in Steps(h) && r.act.Goto? ensures r.act.to != BYPASS { StepIs(h, r); }
  }

  /** The installed rules, one by one. */
  lemma StepIs(h: Host, r: Policy)
    requires r in Steps(h)
    ensures || (r.priority == BYPASS && r.act == TO_MAIN)
            || r == EngineRule(h.uid)
            || r in RouteSteps(h.source)
    ensures r.act.Goto? ==> r.act.to == MAIN_FIRST && r.priority == DNS_BYPASS
  {
    hide AllBypasses;
    BypassesAre(h.interfaces, h.tun, h.v4, r);
    assert r in AllBypasses(h.interfaces, h.tun, h.v4) || r == EngineRule(h.uid) || r in RouteSteps(h.source);
  }

  // ---- DNS skips the bypasses ----

  predicate LocalDns(p: Packet)
  {
    p.local && p.port == 53 && (p.proto == Udp || p.proto == Tcp)
  }

  /** The rule that sends a DNS packet past the bypasses. */
  function SkipRule(p: Packet): Policy
    requires LocalDns(p)
  {
    Policy(DNS_BYPASS, None, true, None, None, Some(p.proto), Goto(MAIN_FIRST))
  }

  lemma SkipRuleInstalled(rules: seq<Policy>, h: Host, p: Packet)
    requires Installed(rules, h) && LocalDns(p)
    ensures SkipRule(p) in rules && Matches(SkipRule(p), p)
    ensures Landing(rules, MAIN_FIRST) < |rules|
  {
    hide Sorted, AllBypasses;
    assert SkipRule(p) in RouteSteps(h.source) by {
      assert SkipRule(p) == RouteSteps(h.source)[3] || SkipRule(p) == RouteSteps(h.source)[4];
    }
    assert SkipRule(p) in Steps(h);
    var main := RouteSteps(h.source)[5];
    assert main in RouteSteps(h.source) && main in Steps(h) && main in rules;
    var i :| 0 <= i < |rules| && rules[i] == main;
    assert rules[i].priority == MAIN_FIRST;
  }

  /** Up to the skip rule, or from the main rule on, the walk never meets a bypass. */
  lemma {:induction false} SafeFrom(rules: seq<Policy>, h: Host, p: Packet, found: nat -> bool, g: nat, i: nat)
    requires Installed(rules, h) && LocalDns(p) && g < |rules| && rules[g] == SkipRule(p)
    requires i <= g || i >= Landing(rules, MAIN_FIRST)
    ensures forall k :: k in Visited(rules, i, p, found) ==> rules[k].priority != BYPASS
    decreases |rules| - i
  {
    hide Steps, Landing;
    if i < |rules| {
      SkipRuleInstalled(rules, h, p);
      var m := Landing(rules, MAIN_FIRST);
      assert g < m;
      assert rules[i].priority != BYPASS;
      if !Answers(rules, i, p, found) {
        NextIsSafe(rules, h, p, g, i);
        SafeFrom(rules, h, p, found, g, Next(rules, i, p));
      }
    }
  }

  lemma NextIsSafe(rules: seq<Policy>, h: Host, p: Packet, g: nat, i: nat)
    requires Installed(rules, h) && LocalDns(p) && g < |rules| && rules[g] == SkipRule(p) && i < |rules|
    requires i <= g || i >= Landing(rules, MAIN_FIRST)
    ensures Next(rules, i, p) <= g || Next(rules, i, p) >= Landing(rules, MAIN_FIRST)
  {
    hide Steps, Landing;
    SkipRuleInstalled(rules, h, p);
    var m, r := Landing(rules, MAIN_FIRST), rules[i];
    if i <= g && Matches(r, p) && r.act.Goto? && i < Landing(rules, r.act.to) < |rules| {
      var j := Landing(rules, r.act.to);
      assert r in rules && r.act.to != BYPASS;
      if j > g {
        assert rules[j].priority >= DNS_BYPASS;
        assert rules[j].priority != DNS_BYPASS;
        assert rules[m].priority == MAIN_FIRST;
      }
    }
  }

  /**
   * A DNS packet of any local program passes no bypass, however many interfaces and addresses
   * there are and whichever table lookups find a route.
   */
  lemma DnsPassesNoBypass(base: seq<Policy>, h: Host, p: Packet, found: nat -> bool)
    requires Polite(base) && LocalDns(p)
    ensures var rules := InsertAll(base, Steps(h));
            forall k :: k in Visited(rules, 0, p, found) ==> rules[k].priority != BYPASS
  {
    hide Installed, Steps, InsertAll, Visited;
    InstallGives(base, h);
    var rules := InsertAll(base, Steps(h));
    SkipRuleInstalled(rules, h, p);
    var g :| 0 <= g < |rules| && rules[g] == SkipRule(p);
    SafeFrom(rules, h, p, found, g, 0);
  }

  // ---- other traffic reaches them ----

  /** Not DNS, not the engine's, not a reply from the TUN address. */
  predicate Ordinary(h: Host, p: Packet)
  {
    p.port != 53 && p.uid != h.uid && p.src != h.source
  }

  lemma EarlierRulesPass(rules: seq<Policy>, h: Host, p: Packet, i: nat)
    requires Installed(rules, h) && Ordinary(h, p) && i < |rules| && RETURN <= rules[i].priority < BYPASS
    ensures !Matches(rules[i], p)
  {
    hide Steps, Sorted;
    assert rules[i] in rules;
    StepIs(h, rules[i]);
  }

  /** From the reserved range on, the walk comes to the bound-socket rule or is answered by an earlier bypass. */
  lemma {:induction false} ReachesBypass(rules: seq<Policy>, h: Host, p: Packet, found: nat -> bool, i: nat, b: nat)
    requires Installed(rules, h) && Ordinary(h, p)
    requires i <= b < |rules| && rules[b].priority == BYPASS && RETURN <= rules[i].priority
    ensures b in Visited(rules, i, p, found)
         || exists k :: i <= k < b && rules[k].priority == BYPASS && Answer(rules, i, p, found) == Some(k)
    ensures Answers(rules, b, p, found) ==>
              exists k :: i <= k <= b && rules[k].priority == BYPASS && Answer(rules, i, p, found) == Some(k)
    decreases b - i
  {
    hide Steps, Landing;
    assert i in Visited(rules, i, p, found) by { assert Visited(rules, i, p, found)[0] == i; }
    if i < b {
      assert rules[i] in rules;
      StepIs(h, rules[i]);
      if rules[i].priority < BYPASS { EarlierRulesPass(rules, h, p, i); }
      if !Answers(rules, i, p, found) {
        assert Next(rules, i, p) == i + 1;
        ReachesBypass(rules, h, p, found, i + 1, b);
      }
    }
  }

  /**
   * A packet bound to a foreign device comes to the rule of that device unless an earlier bypass
   * answers it, and one of them does when the main table has a route.
   */
  lemma BoundTrafficReachesItsBypass(base: seq<Policy>, h: Host, p: Packet, found: nat -> bool, n: nat)
    requires Polite(base) && Ordinary(h, p) && n < |h.interfaces|
    requires h.interfaces[n].name != h.tun && !h.interfaces[n].loopback && p.oif == Some(h.interfaces[n].name)
    ensures var rules := InsertAll(base, Steps(h));
            var start := Landing(rules, RETURN);
            && start < |rules|
            && exists b :: start <= b < |rules| && rules[b] == BoundRule(h.interfaces[n].name)
                           && (b in Visited(rules, start, p, found) || AnsweredByBypass(rules, start, p, found))
                           && (found(b) ==> AnsweredByBypass(rules, start, p, found))
  {
    hide Installed, Steps, InsertAll, Visited, Answer, Landing;
    InstallGives(base, h);
    var rules := InsertAll(base, Steps(h));
    BoundInstalled(rules, h, n);
    var b :| 0 <= b < |rules| && rules[b] == BoundRule(h.interfaces[n].name);
    var start := Landing(rules, RETURN);
    StartsBefore(rules, b, start);
    ReachesBypass(rules, h, p, found, start, b);
    assert found(b) ==> Answers(rules, b, p, found);
  }

  lemma {:induction false} WalkContinues(rules: seq<Policy>, i: nat, p: Packet, found: nat -> bool, j: nat)
    requires j in Visited(rules, i, p, found)
    ensures Answer(rules, i, p, found) == Answer(rules, j, p, found)
    ensures forall k :: k in Visited(rules, j, p, found) ==> k in Visited(rules, i, p, found)
    decreases |rules| - i
  {
    hide Answers, Next;
    if i != j {
      assert !Answers(rules, i, p, found);
      WalkContinues(rules, Next(rules, i, p), p, found, j);
    }
  }

  /** A rule of another owner ends the walk or jumps. */
  predicate Interferes(rules: seq<Policy>, k: nat, p: Packet, found: nat -> bool)
    requires k < |rules|
  {
    Answers(rules, k, p, found) || (Matches(rules[k], p) && rules[k].act.Goto?)
  }

  lemma {:induction false} WalkArrives(rules: seq<Policy>, i: nat, p: Packet, found: nat -> bool, start: nat)
    requires i <= start < |rules| && forall k :: i <= k < start ==> !Interferes(rules, k, p, found)
    ensures start in Visited(rules, i, p, found)
    decreases start - i
  {
    hide Matches, Landing;
    if i < start {
      assert !Interferes(rules, i, p, found);
      assert Next(rules, i, p) == i + 1;
      WalkArrives(rules, i + 1, p, found, start);
      assert start in Visited(rules, i + 1, p, found);
    } else {
      assert Visited(rules, i, p, found)[0] == start;
    }
  }

  /** The same for the whole walk, unless a rule before the reserved ones answers or jumps. */
  lemma BoundTrafficFromTheFirstRule(base: seq<Policy>, h: Host, p: Packet, found: nat -> bool, n: nat)
    requires Polite(base) && Ordinary(h, p) && n < |h.interfaces|
    requires h.interfaces[n].name != h.tun && !h.interfaces[n].loopback && p.oif == Some(h.interfaces[n].name)
    ensures var rules := InsertAll(base, Steps(h));
            var start := Landing(rules, RETURN);
            || (exists k :: 0 <= k < start && k < |rules| && Interferes(rules, k, p, found))
            || exists b :: start <= b < |rules| && rules[b] == BoundRule(h.interfaces[n].name)
                           && (b in Visited(rules, 0, p, found) || AnsweredByBypass(rules, 0, p, found))
                           && (found(b) ==> AnsweredByBypass(rules, 0, p, found))
  {
    hide Installed, Steps, InsertAll, Visited, Answer, Landing, Ordinary, Polite, Interferes;
    BoundTrafficReachesItsBypass(base, h, p, found, n);
    var rules := InsertAll(base, Steps(h));
    var start := Landing(rules, RETURN);
    if forall k :: 0 <= k < start && k < |rules| ==> !Interferes(rules, k, p, found) {
      WalkArrives(rules, 0, p, found, start);
      WalkContinues(rules, 0, p, found, start);
      var b :| start <= b < |rules| && rules[b] == BoundRule(h.interfaces[n].name)
        && (b in Visited(rules, start, p, found) || AnsweredByBypass(rules, start, p, found))
        && (found(b) ==> AnsweredByBypass(rules, start, p, found));
      assert AnsweredByBypass(rules, start, p, found) ==> AnsweredByBypass(rules, 0, p, found);
    }
  }

  ghost predicate AnsweredByBypass(rules: seq<Policy>, start: nat, p: Packet, found: nat -> bool)
  {
    exists k :: start <= k < |rules| && rules[k].priority == BYPASS && Answer(rules, start, p, found) == Some(k)
  }

  lemma StartsBefore(rules: seq<Policy>, b: nat, start: nat)
    requires Sorted(rules) && b < |rules| && rules[b].priority == BYPASS
    requires start < |rules| && rules[start].priority == RETURN
    ensures start <= b
  {
  }

  lemma BoundInstalled(rules: seq<Policy>, h: Host, n: nat)
    requires Installed(rules, h) && n < |h.interfaces| && h.interfaces[n].name != h.tun && !h.interfaces[n].loopback
    ensures BoundRule(h.interfaces[n].name) in rules && Sorted(rules) && Landing(rules, RETURN) < |rules|
  {
    hide Sorted, AllBypasses;
    var bound := BoundRule(h.interfaces[n].name);
    assert Bypasses(h.interfaces[n], h.tun, h.v4, bound);
    BypassesAre(h.interfaces, h.tun, h.v4, bound);
    assert bound in Steps(h);
    var back := RouteSteps(h.source)[0];
    assert back in RouteSteps(h.source) && back in Steps(h) && back in rules;
    var i :| 0 <= i < |rules| && rules[i] == back;
    assert rules[i].priority == RETURN;
  }

  // ---- cleanup finds every installed rule ----

  /** Attributes the tool may add to a listing. */
  const MARKS := {"dport_mask", "oif_detached", "iif_detached"}

  function ShownProto(proto: Proto): string
  {
    match proto case Udp => "ipproto-17" case Tcp => "ipproto-6" case OtherProto => "ipproto-0"
  }

  function If(shown: bool, v: string): Option<string> { if shown then Some(v) else None }

  /** The value listed for an attribute of an installed rule, if any. */
  function Attribute(r: Policy, marks: Listed, key: string): Option<string>
  {
    if key == "priority" then Some(Itoa(r.priority))
    else if key == "protocol" then Some(PROTOCOL)
    else if key == "src" then Some(if r.src.Some? then r.src.value else "all")
    else if key == "table" then Some(if r.act.Goto? then "" else if r.act.table == TunTable then TABLE else MAIN)
    else if key == "iif" then If(r.local, "lo")
    else if key == "oif" then r.oif
    else if key == "uid_start" || key == "uid_end" then (if r.uid.Some? then Some(Itoa(r.uid.value)) else None)
    else if key == "ipproto" then (if r.dns.Some? then Some(ShownProto(r.dns.value)) else None)
    else if key == "dport" then If(r.dns.Some?, "53")
    else if key == "goto" then (if r.act.Goto? then Some(Itoa(r.act.to)) else None)
    else if key == "suppress_prefixlen" then
      (if r.act.Lookup? && r.act.suppress.Some? then Some(Itoa(r.act.suppress.value)) else None)
    else if key in marks then Some(marks[key])
    else None
  }

  /** How the routing tool lists an installed rule. */
  function Shown(r: Policy, marks: Listed): Listed
  {
    map key | key in KNOWN && Attribute(r, marks, key).Some? :: Attribute(r, marks, key).value
  }

  lemma ShownValues(r: Policy, marks: Listed)
    requires marks.Keys <= MARKS
    ensures var l := Shown(r, marks);
            && Value(l, "priority") == Itoa(r.priority) && Value(l, "protocol") == PROTOCOL && Describable(l)
            && Value(l, "table") == (if r.act.Goto? then "" else if r.act.table == TunTable then TABLE else MAIN)
            && (r.act.Goto? ==> Value(l, "goto") == Itoa(r.act.to))
  {
  }

  /** Cleanup recognises whatever route installed. */
  lemma InstalledRulesAreOwned(h: Host, r: Policy, marks: Listed, me: string)
    requires r in Steps(h) && marks.Keys <= MARKS
    ensures Value(Shown(r, marks), "protocol") == PROTOCOL && Owned(Shown(r, marks), me)
  {
    hide Steps, Shown, Legacy, BoundToTun, Untagged, Itoa, Atoi, Describable, Value;
    StepIs(h, r);
    ShownValues(r, marks);
    AtoiReadsBack(r.priority);
    assert RETURN <= r.priority <= TUNNEL;
    assert Itoa(MAIN_FIRST) == PRIORITY_MAIN by { MainPriorityText(); }
    assert Tagged(Shown(r, marks));
  }

  lemma MainPriorityText()
    ensures Itoa(MAIN_FIRST) == PRIORITY_MAIN
  {
    assert Itoa(5) == "5" && Itoa(53) == "53" && Itoa(533) == "533";
  }

  /** Only Sora uses its protocol number: each such rule was installed by this or some earlier session. */
  ghost predicate OnlyOurs(rules: seq<Listed>)
  {
    forall l :: l in rules && Value(l, "protocol") == PROTOCOL ==> Installable(l)
  }

  /** Some session, with whatever interfaces, addresses and user it had, installed the rule listed so. */
  ghost predicate Installable(l: Listed)
  {
    exists h, r, marks: Listed :: r in Steps(h) && marks.Keys <= MARKS && l == Shown(r, marks)
  }

  /** A cleanup whose deletions succeed leaves no rule that any session installed. */
  lemma CleanupRemovesEveryInstalledRule(rules: seq<Listed>, me: string, works: seq<bool>)
    requires |works| == |rules| && (forall i :: 0 <= i < |works| ==> works[i]) && OnlyOurs(rules)
    ensures forall l :: l in Kept(rules, me, works) ==> !Installable(l)
  {
    hide Owned, Kept, Installable, Value;
    forall l | Installable(l) ensures Value(l, "protocol") == PROTOCOL && Owned(l, me) { InstallableIsOwned(l, me); }
    TaggedRulesGo(rules, me, works);
  }

  lemma InstallableIsOwned(l: Listed, me: string)
    requires Installable(l)
    ensures Value(l, "protocol") == PROTOCOL && Owned(l, me)
  {
    hide Steps, Shown, Owned, Value;
    var h: Host, r: Policy, marks: Listed :| r in Steps(h) && marks.Keys <= MARKS && l == Shown(r, marks);
    InstalledRulesAreOwned(h, r, marks, me);
  }
}
