/** What a rule list means: the first rule whose condition holds decides a connection. */
module Routing {
  import opened Text
  import opened Plans

  /** One thing an engine can ask about a connection. */
  datatype Atom =
    | DomainIs(domain: string)
    | DomainUnder(domain: string)
    | DomainHas(part: string)
    | InCategory(name: string)
    | InCidr(prefix: string)
    | IpEnds(suffix: string)
    | PrivateAddress
    | InCountry(code: string)
    | InRuleSet(url: string)
    | ToPort(port: Option<int>)
    | FromPort(port: Option<int>)
    | ByProcess(process: string)
    | OverNetwork(network: string)

  /** A connection, known only by the answers it gives. */
  type Conn = Atom -> bool

  function LowerChar(c: char): char
  {
    if 'A' <= c <= 'Z' then (c as int + 32) as char else c
  }

  /** strings.ToLower on ASCII text. */
  function Lower(s: string): (r: string)
    ensures |r| == |s|
  {
    seq(|s|, i requires 0 <= i < |s| => LowerChar(s[i]))
  }

  predicate HasPrefix(s: string, p: string)
  {
    p <= s
  }

  /** The private ranges go by two names. */
  function Country(code: string): Atom
  {
    if code == "private" || code == "lan" then PrivateAddress else InCountry(code)
  }

  const GEOSITE_URL := "https://raw.githubusercontent.com/SagerNet/sing-geosite/rule-set/geosite-"
  const GEOIP_URL := "https://raw.githubusercontent.com/SagerNet/sing-geoip/rule-set/geoip-"

  function GeoSiteUrl(name: string): string { GEOSITE_URL + name + ".srs" }

  function GeoIpUrl(code: string): string { GEOIP_URL + code + ".srs" }

  predicate Between(s: string, p: string, q: string)
  {
    |s| >= |p| + |q| && s[..|p|] == p && s[|s| - |q|..] == q
  }

  /** What a downloaded rule set holds: the two published families, or the set itself. */
  function Published(url: string): Atom
  {
    if Between(url, GEOIP_URL, ".srs") then InCountry(url[|GEOIP_URL|..|url| - 4])
    else if Between(url, GEOSITE_URL, ".srs") then InCategory(url[|GEOSITE_URL|..|url| - 4])
    else InRuleSet(url)
  }

  /** The condition a plan rule states. */
  function Means(r: Rule): Atom
    requires r.kind != MatchAll && r.kind != OtherRule
  {
    match r.kind
    case Domain => DomainIs(r.value)
    case DomainSuffix => DomainUnder(r.value)
    case DomainKeyword => DomainHas(r.value)
    case IpCidr => InCidr(r.value)
    case IpSuffix => IpEnds(r.value)
    case GeoIp => Country(Lower(r.value))
    case GeoSite => InCategory(Lower(r.value))
    case RuleSet => Published(r.value)
    case Port => ToPort(Atoi(r.value))
    case SrcPort => FromPort(Atoi(r.value))
    case Process => ByProcess(r.value)
    case Protocol => OverNetwork(Lower(r.value))
  }

  predicate Fires(r: Rule, c: Conn)
  {
    r.kind == MatchAll || (r.kind != OtherRule && c(Means(r)))
  }

  /** The first true answer, or the number of answers when there is none. */
  function First(hits: seq<bool>): (n: nat)
    ensures n <= |hits|
    ensures forall i :: 0 <= i < n ==> !hits[i]
    ensures n < |hits| ==> hits[n]
  {
    if hits == [] || hits[0] then 0 else 1 + First(hits[1..])
  }

  function Hits(rules: seq<Rule>, c: Conn): (h: seq<bool>)
    ensures |h| == |rules|
  {
    seq(|rules|, i requires 0 <= i < |rules| => Fires(rules[i], c))
  }

  /** The position of the plan rule that decides a connection. */
  function Fired(rules: seq<Rule>, c: Conn): (n: nat)
    ensures n <= |rules|
  {
    First(Hits(rules, c))
  }

  /** The target a rule list sends a connection to; unmatched connections go direct. */
  function Decision(rules: seq<Rule>, c: Conn): string
  {
    var n := Fired(rules, c);
    if n < |rules| then rules[n].target else "direct"
  }

  /** The first catch-all: nothing after it can decide a connection. */
  function FirstAll(rules: seq<Rule>): (n: nat)
    ensures n <= |rules|
    ensures forall i :: 0 <= i < n ==> rules[i].kind != MatchAll
    ensures n < |rules| ==> rules[n].kind == MatchAll
  {
    if rules == [] || rules[0].kind == MatchAll then 0 else 1 + FirstAll(rules[1..])
  }

  lemma CatchAllEndsTheList(rules: seq<Rule>, c: Conn)
    ensures Fired(rules, c) <= FirstAll(rules)
  {
    var n := FirstAll(rules);
    if n < |rules| { assert Hits(rules, c)[n]; }
  }

  /** A rule some connection reaches: nothing before it catches all or asks the same. */
  predicate Live(rules: seq<Rule>, i: nat)
    requires i < |rules| && forall r :: r in rules ==> r.kind != OtherRule
  {
    && (forall k :: 0 <= k < i ==> rules[k].kind != MatchAll)
    && (rules[i].kind == MatchAll || forall k :: 0 <= k < i ==> rules[k].kind != MatchAll && Means(rules[k]) != Means(rules[i]))
  }

  /** The rule that decides is live. */
  lemma DecidingRuleIsLive(rules: seq<Rule>, c: Conn)
    requires (forall r :: r in rules ==> r.kind != OtherRule) && Fired(rules, c) < |rules|
    ensures Live(rules, Fired(rules, c)) && Fires(rules[Fired(rules, c)], c)
  {
    hide First, Means;
    var n := Fired(rules, c);
    assert Hits(rules, c)[n];
    forall k | 0 <= k < n ensures !Fires(rules[k], c) { assert !Hits(rules, c)[k]; }
  }

  lemma NothingCatchesAll(rules: seq<Rule>, c: Conn)
    requires Fired(rules, c) == |rules|
    ensures FirstAll(rules) == |rules|
  {
    hide First, FirstAll;
    CatchAllEndsTheList(rules, c);
  }

  lemma NotYet(rules: seq<Rule>, c: Conn, k: nat)
    requires k < Fired(rules, c)
    ensures !Fires(rules[k], c)
  {
    hide First, Fires;
    assert !Hits(rules, c)[k];
  }

  /** A connection that answers yes to these questions only. */
  function Yes(atoms: set<Atom>): Conn { a => a in atoms }

  lemma FiresAt(rules: seq<Rule>, i: nat, atoms: set<Atom>)
    requires (forall r :: r in rules ==> r.kind != OtherRule) && i < |rules| && Live(rules, i)
    requires rules[i].kind == MatchAll || Means(rules[i]) in atoms
    requires forall k :: 0 <= k < i && rules[k].kind != MatchAll ==> Means(rules[k]) !in atoms
    ensures Fired(rules, Yes(atoms)) == i
  {
    hide First, Means;
    forall k | 0 <= k < i ensures !Hits(rules, Yes(atoms))[k] { assert rules[k] in rules; }
    assert Hits(rules, Yes(atoms))[i];
  }

  lemma FiresNowhere(rules: seq<Rule>)
    requires (forall r :: r in rules ==> r.kind != OtherRule) && FirstAll(rules) == |rules|
    ensures Fired(rules, Yes({})) == |rules|
  {
    hide First, Means, FirstAll;
    forall k | 0 <= k < |rules| ensures !Hits(rules, Yes({}))[k] { assert rules[k].kind != MatchAll; }
  }

  /** A port a rule names is a number. */
  predicate Readable(r: Rule)
  {
    r.kind == Port || r.kind == SrcPort ==> Atoi(r.value).Some?
  }

  /** A connection has one source port, one destination port, one network and one process at most. */
  ghost predicate Real(c: Conn)
  {
    && !c(FromPort(None)) && !c(ToPort(None))
    && (forall a, b :: c(FromPort(a)) && c(FromPort(b)) ==> a == b)
    && (forall a, b :: c(ToPort(a)) && c(ToPort(b)) ==> a == b)
    && (forall a, b :: c(OverNetwork(a)) && c(OverNetwork(b)) ==> a == b)
    && (forall a, b :: c(ByProcess(a)) && c(ByProcess(b)) ==> a == b)
  }

  predicate SameField(a: Atom, b: Atom)
  {
    || (a.FromPort? && b.FromPort?)
    || (a.ToPort? && b.ToPort?)
    || (a.OverNetwork? && b.OverNetwork?)
    || (a.ByProcess? && b.ByProcess?)
  }

  /** Answers about different fields make a real connection. */
  lemma DifferentFieldsAreReal(s: set<Atom>)
    requires FromPort(None) !in s && ToPort(None) !in s
    requires forall a, b :: a in s && b in s && SameField(a, b) ==> a == b
    ensures Real(Yes(s))
  {
    forall a, b | FromPort(a) in s && FromPort(b) in s ensures a == b { assert SameField(FromPort(a), FromPort(b)); }
    forall a, b | ToPort(a) in s && ToPort(b) in s ensures a == b { assert SameField(ToPort(a), ToPort(b)); }
    forall a, b | OverNetwork(a) in s && OverNetwork(b) in s ensures a == b { assert SameField(OverNetwork(a), OverNetwork(b)); }
    forall a, b | ByProcess(a) in s && ByProcess(b) in s ensures a == b { assert SameField(ByProcess(a), ByProcess(b)); }
  }

  lemma ReadableMeans(r: Rule)
    requires r.kind != MatchAll && r.kind != OtherRule && Readable(r)
    ensures Means(r) != FromPort(None) && Means(r) != ToPort(None)
    ensures (Means(r).FromPort? <==> r.kind == SrcPort) && (Means(r).ByProcess? <==> r.kind == Process)
  {
  }

  /** Address ranges hold hexadecimal digits and separators only. */
  predicate CidrText(v: string)
  {
    forall k :: 0 <= k < |v| ==> IsHex(v[k]) || 'A' <= v[k] <= 'F' || v[k] == '.' || v[k] == ':' || v[k] == '/'
  }

  predicate GoodRanges(rules: seq<Rule>)
  {
    forall k :: 0 <= k < |rules| && rules[k].kind == IpCidr ==> CidrText(rules[k].value)
  }
}
