/** Routing presets: what is added behind the user's own rules. */
module Presets {
  import opened Text
  import opened Plans
  import opened Routing

  function DirectCountry(code: string): Rule { Rule(GeoIp, code, "direct", true) }

  function DirectCategory(name: string): Rule { Rule(GeoSite, name, "direct", false) }

  const ADS := Rule(GeoSite, "category-ads-all", "reject", false)

  function RussianRules(): seq<Rule>
  {
    [DirectCountry("private"), DirectCategory("category-gov-ru"), DirectCategory("category-bank-ru"),
     DirectCategory("category-ru"), DirectCategory("tld-ru"), DirectCategory("yandex"),
     DirectCategory("vk"), DirectCategory("mailru"), DirectCountry("ru")]
  }

  function DirectRules(preset: string): Option<seq<Rule>>
  {
    if preset == "global" then Some([DirectCountry("private")])
    else if preset == "ru" then Some(RussianRules())
    else if preset == "ir" then Some([DirectCountry("private"), DirectCategory("category-ir"), DirectCountry("ir")])
    else if preset == "cn" then Some([DirectCountry("private"), DirectCategory("cn"), DirectCountry("cn")])
    else None
  }

  datatype Options = Options(preset: string, proxyTarget: string, blockAds: bool)

  datatype Applied = NeedsTarget | UnknownPreset | Rules(rules: seq<Rule>)

  predicate HasCatchAll(rules: seq<Rule>)
  {
    exists i :: 0 <= i < |rules| && rules[i].kind == MatchAll
  }

  function Apply(user: seq<Rule>, o: Options): Applied
  {
    if HasCatchAll(user) then Rules(user)
    else if o.preset == "" && !o.blockAds && o.proxyTarget == "" then Rules(user)
    else if o.proxyTarget == "" then NeedsTarget
    else
      var ads := if o.blockAds then [ADS] else [];
      var fallback := Rule(MatchAll, "", o.proxyTarget, false);
      if o.preset == "" then Rules(user + ads + [fallback])
      else match DirectRules(o.preset)
           case None => UnknownPreset
           case Some(direct) => Rules(user + ads + direct + [fallback])
  }

  /** Appended rules are asked only about connections the earlier ones leave open. */
  lemma FiredInFront(front: seq<Rule>, back: seq<Rule>, c: Conn)
    ensures Fired(front, c) < |front| ==> Fired(front + back, c) == Fired(front, c)
    ensures Fired(front, c) == |front| ==> Fired(front + back, c) == |front| + Fired(back, c)
  {
    hide First, Fires;
    var rules, n := front + back, Fired(front, c);
    assert forall i :: 0 <= i < |front| ==> Hits(rules, c)[i] == Hits(front, c)[i];
    if n == |front| {
      var m := Fired(back, c);
      assert forall i :: 0 <= i < |back| ==> Hits(rules, c)[|front| + i] == Hits(back, c)[i];
      forall i | |front| <= i < |front| + m ensures !Hits(rules, c)[i] {
        assert !Hits(back, c)[i - |front|];
        assert Hits(rules, c)[|front| + (i - |front|)] == Hits(back, c)[i - |front|];
      }
    }
  }

  lemma DecisionInFront(front: seq<Rule>, back: seq<Rule>, c: Conn)
    ensures Decision(front + back, c) == if Fired(front, c) < |front| then Decision(front, c) else Decision(back, c)
  {
    hide Fired;
    FiredInFront(front, back, c);
  }

  /** No preset changes a connection that one of the user's rules already decides. */
  lemma UserRulesKeepDeciding(user: seq<Rule>, o: Options, c: Conn)
    requires Apply(user, o).Rules? && Fired(user, c) < |user|
    ensures Fired(Apply(user, o).rules, c) == Fired(user, c)
    ensures Decision(Apply(user, o).rules, c) == Decision(user, c)
  {
    hide Fired, DirectRules;
    var out := Apply(user, o).rules;
    assert out == user + out[|user|..];
    FiredInFront(user, out[|user|..], c);
  }

  /** A preset sends a connection direct when any of its rules holds. */
  predicate PresetDirect(preset: string, c: Conn)
  {
    preset != "" && DirectRules(preset).Some?
    && exists i :: 0 <= i < |DirectRules(preset).value| && Fires(DirectRules(preset).value[i], c)
  }

  lemma AllDirect(preset: string, c: Conn)
    requires DirectRules(preset).Some?
    ensures var rules := DirectRules(preset).value;
            forall i :: 0 <= i < |rules| ==> rules[i].target == "direct"
  {
  }

  /**
   * What happens to a connection the user's rules leave open: blocked as an advertisement,
   * direct by the preset, or through the proxy target - and never undecided.
   */
  lemma OpenConnectionsFollowThePreset(user: seq<Rule>, o: Options, c: Conn)
    requires Apply(user, o).Rules? && Fired(user, c) == |user| && o.proxyTarget != ""
    ensures Fired(Apply(user, o).rules, c) < |Apply(user, o).rules|
    ensures Decision(Apply(user, o).rules, c) ==
            if o.blockAds && c(InCategory("category-ads-all")) then "reject"
            else if PresetDirect(o.preset, c) then "direct"
            else o.proxyTarget
  {
    hide Fired, DirectRules, Decision;
    OpenMeansNoCatchAll(user, c);
    var ads := if o.blockAds then [ADS] else [];
    var fallback := Rule(MatchAll, "", o.proxyTarget, false);
    var direct := if o.preset == "" then [] else DirectRules(o.preset).value;
    assert Apply(user, o).rules == user + (ads + (direct + [fallback]));
    FiredInFront(user, ads + (direct + [fallback]), c);
    FiredInFront(ads, direct + [fallback], c);
    FiredInFront(direct, [fallback], c);
    DecisionInFront(user, ads + (direct + [fallback]), c);
    DecisionInFront(ads, direct + [fallback], c);
    DecisionInFront(direct, [fallback], c);
    AdsDecide(ads, c);
    PresetDecides(o.preset, direct, c);
    Falls(fallback, c);
  }

  lemma OpenMeansNoCatchAll(user: seq<Rule>, c: Conn)
    requires Fired(user, c) == |user|
    ensures !HasCatchAll(user)
  {
    hide First;
    forall i | 0 <= i < |user| ensures user[i].kind != MatchAll { assert !Hits(user, c)[i]; }
  }

  lemma AdsDecide(ads: seq<Rule>, c: Conn)
    requires ads == [ADS] || ads == []
    ensures Fired(ads, c) < |ads| <==> ads == [ADS] && c(InCategory("category-ads-all"))
    ensures Fired(ads, c) < |ads| ==> Decision(ads, c) == "reject"
  {
    hide First;
    assert Lower("category-ads-all") == "category-ads-all";
    assert ads == [ADS] ==> Hits(ads, c)[0] == Fires(ADS, c);
  }

  lemma PresetDecides(preset: string, direct: seq<Rule>, c: Conn)
    requires direct == if preset == "" || DirectRules(preset).None? then [] else DirectRules(preset).value
    ensures Fired(direct, c) < |direct| <==> PresetDirect(preset, c)
    ensures Fired(direct, c) < |direct| ==> Decision(direct, c) == "direct"
  {
    hide First, DirectRules, Fires;
    if Fired(direct, c) < |direct| {
      AllDirect(preset, c);
      assert Hits(direct, c)[Fired(direct, c)];
      assert Fires(DirectRules(preset).value[Fired(direct, c)], c);
    }
    if PresetDirect(preset, c) {
      var i :| 0 <= i < |DirectRules(preset).value| && Fires(DirectRules(preset).value[i], c);
      assert Hits(direct, c)[i];
    }
  }

  lemma Falls(fallback: Rule, c: Conn)
    requires fallback.kind == MatchAll
    ensures Fired([fallback], c) == 0 && Decision([fallback], c) == fallback.target
  {
    assert Hits([fallback], c)[0];
  }

  /** Application fails exactly when something is asked for without a target, or of an unknown preset. */
  lemma WhenApplyFails(user: seq<Rule>, o: Options)
    ensures Apply(user, o) == NeedsTarget <==> !HasCatchAll(user) && o.proxyTarget == "" && (o.preset != "" || o.blockAds)
    ensures Apply(user, o) == UnknownPreset <==>
              && !HasCatchAll(user) && o.proxyTarget != ""
              && o.preset != "" && o.preset !in {"global", "ru", "ir", "cn"}
    ensures Apply(user, o).Rules? ==> user <= Apply(user, o).rules
  {
    hide HasCatchAll, DirectCountry, DirectCategory;
  }

  /** What each preset exempts from the proxy; private addresses always. */
  lemma PresetMeaning(c: Conn)
    ensures PresetDirect("global", c) <==> c(PrivateAddress)
    ensures PresetDirect("ir", c) <==> c(PrivateAddress) || c(InCategory("category-ir")) || c(InCountry("ir"))
    ensures PresetDirect("cn", c) <==> c(PrivateAddress) || c(InCategory("cn")) || c(InCountry("cn"))
    ensures PresetDirect("ru", c) <==>
              (|| c(PrivateAddress) || c(InCountry("ru"))
               || c(InCategory("category-gov-ru")) || c(InCategory("category-bank-ru")) || c(InCategory("category-ru"))
               || c(InCategory("tld-ru")) || c(InCategory("yandex")) || c(InCategory("vk")) || c(InCategory("mailru")))
  {
    hide PresetDirect;
    SmallPresets(c);
    RussianPreset(c);
  }

  lemma CountryFires(code: string, c: Conn)
    requires Lower(code) == code
    ensures Fires(DirectCountry(code), c) <==> c(Country(code))
  {
  }

  lemma CategoryFires(name: string, c: Conn)
    requires Lower(name) == name
    ensures Fires(DirectCategory(name), c) <==> c(InCategory(name))
  {
  }

  lemma SmallPresets(c: Conn)
    ensures PresetDirect("global", c) <==> c(PrivateAddress)
    ensures PresetDirect("ir", c) <==> c(PrivateAddress) || c(InCategory("category-ir")) || c(InCountry("ir"))
    ensures PresetDirect("cn", c) <==> c(PrivateAddress) || c(InCategory("cn")) || c(InCountry("cn"))
  {
    SmallFires(c);
    hide Fires, DirectCountry, DirectCategory;
    var i, n := DirectRules("ir").value, DirectRules("cn").value;
    assert DirectRules("global").value[0] == DirectCountry("private");
    assert i[0] == DirectCountry("private") && i[1] == DirectCategory("category-ir") && i[2] == DirectCountry("ir");
    assert n[0] == DirectCountry("private") && n[1] == DirectCategory("cn") && n[2] == DirectCountry("cn");
  }

  lemma SmallFires(c: Conn)
    ensures Fires(DirectCountry("private"), c) <==> c(PrivateAddress)
    ensures Fires(DirectCountry("ir"), c) <==> c(InCountry("ir"))
    ensures Fires(DirectCountry("cn"), c) <==> c(InCountry("cn"))
    ensures Fires(DirectCategory("category-ir"), c) <==> c(InCategory("category-ir"))
    ensures Fires(DirectCategory("cn"), c) <==> c(InCategory("cn"))
  {
    hide Fires, DirectCountry, DirectCategory;
    CountryFires("private", c);
    CountryFires("ir", c);
    CountryFires("cn", c);
    CategoryFires("category-ir", c);
    CategoryFires("cn", c);
  }

  lemma RussianFires(c: Conn)
    ensures Fires(DirectCountry("private"), c) <==> c(PrivateAddress)
    ensures Fires(DirectCountry("ru"), c) <==> c(InCountry("ru"))
    ensures Fires(DirectCategory("category-gov-ru"), c) <==> c(InCategory("category-gov-ru"))
    ensures Fires(DirectCategory("category-bank-ru"), c) <==> c(InCategory("category-bank-ru"))
    ensures Fires(DirectCategory("category-ru"), c) <==> c(InCategory("category-ru"))
  {
    hide Fires, DirectCountry, DirectCategory;
    CountryFires("private", c);
    CountryFires("ru", c);
    CategoryFires("category-gov-ru", c);
    CategoryFires("category-bank-ru", c);
    CategoryFires("category-ru", c);
  }

  lemma RussianSitesFire(c: Conn)
    ensures Fires(DirectCategory("tld-ru"), c) <==> c(InCategory("tld-ru"))
    ensures Fires(DirectCategory("yandex"), c) <==> c(InCategory("yandex"))
    ensures Fires(DirectCategory("vk"), c) <==> c(InCategory("vk"))
    ensures Fires(DirectCategory("mailru"), c) <==> c(InCategory("mailru"))
  {
    hide Fires, DirectCategory;
    CategoryFires("tld-ru", c);
    CategoryFires("yandex", c);
    CategoryFires("vk", c);
    CategoryFires("mailru", c);
  }

  lemma RussianPreset(c: Conn)
    ensures PresetDirect("ru", c) <==>
              (|| c(PrivateAddress) || c(InCountry("ru"))
               || c(InCategory("category-gov-ru")) || c(InCategory("category-bank-ru")) || c(InCategory("category-ru"))
               || c(InCategory("tld-ru")) || c(InCategory("yandex")) || c(InCategory("vk")) || c(InCategory("mailru")))
  {
    hide Fires, DirectCountry, DirectCategory;
    assert DirectRules("ru") == Some(RussianRules());
    hide DirectRules;
    RussianFires(c);
    RussianSitesFire(c);
    var r := RussianRules();
    assert PresetDirect("ru", c) <==> exists i :: 0 <= i < |r| && Fires(r[i], c);
    assert Fires(r[0], c) || Fires(r[1], c) || Fires(r[2], c) || Fires(r[3], c) || Fires(r[4], c) ==> PresetDirect("ru", c);
    assert Fires(r[5], c) || Fires(r[6], c) || Fires(r[7], c) || Fires(r[8], c) ==> PresetDirect("ru", c);
  }

  // ---- advertisements ----

  const ADS_ATOM := InCategory("category-ads-all")

  /** An advertisement is rejected exactly when no user rule decides it, or one that rejects does. */
  lemma AdIsRejectedUnlessAUserRuleTakesIt(user: seq<Rule>, o: Options, c: Conn)
    requires Apply(user, o).Rules? && o.blockAds && c(ADS_ATOM)
    ensures Decision(Apply(user, o).rules, c) == "reject" <==> Fired(user, c) == |user| || Decision(user, c) == "reject"
  {
    hide Decision, DirectRules, Fired;
    if Fired(user, c) < |user| {
      UserRulesKeepDeciding(user, o, c);
    } else {
      OpenMeansNoCatchAll(user, c);
      OpenConnectionsFollowThePreset(user, o, c);
    }
  }

  /** Every user rule that can be the first to take an advertisement rejects. */
  predicate AdsComeFirst(user: seq<Rule>)
    requires forall r :: r in user ==> r.kind != OtherRule
  {
    forall i :: 0 <= i < |user| && Live(user, i)
                && (forall k :: 0 <= k < i ==> user[k].kind != MatchAll && Means(user[k]) != ADS_ATOM)
                ==> user[i].target == "reject"
  }

  /** Blocking comes before everything else exactly when no such rule lets an advertisement through. */
  lemma EveryAdIsRejectedExactly(user: seq<Rule>, o: Options)
    requires Apply(user, o).Rules? && o.blockAds && forall r :: r in user ==> r.kind != OtherRule && Readable(r)
    ensures (forall c: Conn :: Real(c) && c(ADS_ATOM) ==> Decision(Apply(user, o).rules, c) == "reject") <==> AdsComeFirst(user)
  {
    hide Decision, Fired, Apply, Live, AdsComeFirst, Real;
    if AdsComeFirst(user) {
      forall c: Conn | c(ADS_ATOM) ensures Decision(Apply(user, o).rules, c) == "reject" {
        AdIsRejectedUnlessAUserRuleTakesIt(user, o, c);
        if Fired(user, c) < |user| { FirstTakerRejects(user, c); }
      }
    } else {
      var c := AdLetThrough(user);
      AdIsRejectedUnlessAUserRuleTakesIt(user, o, c);
    }
  }

  lemma FirstTakerRejects(user: seq<Rule>, c: Conn)
    requires (forall r :: r in user ==> r.kind != OtherRule) && AdsComeFirst(user) && c(ADS_ATOM) && Fired(user, c) < |user|
    ensures Decision(user, c) == "reject"
  {
    var n := Fired(user, c);
    DecidingRuleIsLive(user, c);
    hide Live, First, Means;
    forall k | 0 <= k < n ensures user[k].kind != MatchAll && Means(user[k]) != ADS_ATOM {
      NotYet(user, c, k);
      assert user[k] in user;
    }
  }

  lemma AdLetThrough(user: seq<Rule>) returns (c: Conn)
    requires (forall r :: r in user ==> r.kind != OtherRule && Readable(r)) && !AdsComeFirst(user)
    ensures Real(c) && c(ADS_ATOM) && Fired(user, c) < |user| && Decision(user, c) != "reject"
  {
    hide Means, First;
    var i :| 0 <= i < |user| && Live(user, i)
      && (forall k :: 0 <= k < i ==> user[k].kind != MatchAll && Means(user[k]) != ADS_ATOM) && user[i].target != "reject";
    assert user[i] in user;
    var own := if user[i].kind == MatchAll then ADS_ATOM else Means(user[i]);
    if user[i].kind != MatchAll { ReadableMeans(user[i]); }
    DifferentFieldsAreReal({ADS_ATOM, own});
    hide Real;
    FiresAt(user, i, {ADS_ATOM, own});
    c := Yes({ADS_ATOM, own});
  }

  /** A user rule for a domain lets that domain's advertisements through. */
  lemma AdMayPass(proxy: string)
    requires proxy != ""
    ensures var user := [Rule(Domain, "ads.example", "direct", false)];
            var c := Yes({ADS_ATOM, DomainIs("ads.example")});
            var a := Apply(user, Options("", proxy, true));
            a.Rules? && Real(c) && c(ADS_ATOM) && Decision(a.rules, c) == "direct"
  {
    DifferentFieldsAreReal({ADS_ATOM, DomainIs("ads.example")});
    hide Real;
    var user := [Rule(Domain, "ads.example", "direct", false)];
    var c := Yes({ADS_ATOM, DomainIs("ads.example")});
    assert Hits(user, c)[0];
    UserRulesKeepDeciding(user, Options("", proxy, true), c);
  }
}
