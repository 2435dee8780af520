/** Policy-route cleanup: which kernel rules are Sora's, and the loop that deletes them. */
module PolicyRules {
  import opened Text

  /** A rule as the routing tool lists it: attribute names and values, quotes removed. */
  type Listed = map<string, string>

  const TABLE := "5340"
  const PROTOCOL := "242"
  const MAIN := "254"
  const PRIORITY_MAIN := "5338"
  const TUN_DEVICE := "sora0"

  function Value(r: Listed, key: string): string
  {
    if key in r then r[key] else ""
  }

  const KNOWN := {"priority", "src", "dst", "table", "protocol", "goto", "oif", "iif", "oif_detached", "iif_detached",
                  "uid_start", "uid_end", "ipproto", "dport", "dport_mask", "suppress_prefixlen"}

  /** Rules with an attribute the delete command cannot repeat are left alone. */
  predicate Describable(r: Listed)
  {
    r.Keys <= KNOWN
  }

  predicate Untagged(r: Listed)
  {
    Value(r, "protocol") == "" || Value(r, "protocol") == "0" || Value(r, "protocol") == "2"
  }

  /** mihomo's bound-interface rule, at whatever priority it chose. */
  predicate BoundToTun(r: Listed, priority: int)
  {
    var tagged, detached := Value(r, "protocol") != "", "oif_detached" in r;
    && priority > 0 && Value(r, "oif") == TUN_DEVICE && Value(r, "src") == "all"
    && (Value(r, "table") == TABLE || Value(r, "table") == "2022") && Untagged(r)
    && (|r| == 4 || (|r| == 5 && (detached || tagged)) || (|r| == 6 && detached && tagged))
  }

  predicate Tagged(r: Listed)
  {
    && Value(r, "protocol") == PROTOCOL
    && ((Value(r, "goto") == PRIORITY_MAIN && Value(r, "table") == "") || Value(r, "table") == TABLE || Value(r, "table") == MAIN)
  }

  /** The attributes a pre-upgrade rule of this priority may have, if it is one. */
  function Legacy(r: Listed, priority: int, me: string): Option<set<string>>
  {
    var base := {"priority", "src", "table", "protocol"};
    var table, src := Value(r, "table"), Value(r, "src");
    if priority == 5333 && table == MAIN && src == "all" && Value(r, "oif") != "" then Some(base + {"oif"})
    else if priority == 5334 && table == MAIN && src != "all" && src != "" then Some(base)
    else if priority == 5335 && table == TABLE && src != "all" && src != "" then Some(base)
    else if priority == 5336 && table == MAIN && src == "all" && Value(r, "uid_start") == me && Value(r, "uid_end") == me then
      Some(base + {"uid_start", "uid_end"})
    else if priority == 5337 && (Value(r, "dport_mask") == "" || Value(r, "dport_mask") == "0xffff") && table == TABLE
            && src == "all" && Value(r, "iif") == "lo" && Value(r, "ipproto") == "ipproto-17" && Value(r, "dport") == "53" then
      Some(base + {"iif", "ipproto", "dport", "dport_mask"})
    else if priority == 5338 && table == MAIN && src == "all" && Value(r, "iif") == "lo" && Value(r, "suppress_prefixlen") == "0" then
      Some(base + {"iif", "suppress_prefixlen"})
    else if priority == 5339 && table == TABLE && src == "all" && Value(r, "iif") == "lo" then Some(base + {"iif"})
    else None
  }

  /** ownedRule: the rule is Sora's and can be named exactly. */
  predicate Owned(r: Listed, me: string)
  {
    match Atoi(Value(r, "priority"))
    case None => false
    case Some(priority) =>
      && Describable(r)
      && (|| BoundToTun(r, priority)
          || (&& 5333 <= priority <= 5339
              && (|| Tagged(r)
                  || (Untagged(r) && match Legacy(r, priority, me) case None => false case Some(allowed) => r.Keys <= allowed))))
  }

  const COMPARED := ["priority", "table", "protocol", "src", "dst", "oif", "iif", "uid_start", "uid_end",
                     "ipproto", "dport", "dport_mask", "suppress_prefixlen"]

  /** Values the kernel takes as "any". */
  predicate Wildcard(key: string, v: string)
  {
    v == "" || v == "all"
    || (v == "0" && key != "priority" && key != "uid_start" && key != "uid_end" && key != "suppress_prefixlen")
  }

  predicate Agrees(want: Listed, older: Listed, key: string)
  {
    Wildcard(key, Value(want, key)) || Value(want, key) == Value(older, key)
  }

  /** Deleting one rule might hit this other one. */
  predicate DeleteMatches(want: Listed, older: Listed)
  {
    && (forall i :: 0 <= i < |COMPARED| ==> Agrees(want, older, COMPARED[i]))
    && (Value(want, "goto") == "" <==> Value(older, "goto") == "")
  }

  /** How the kernel looks a rule up: never further than deleteMatches, and every rule finds itself. */
  ghost predicate Finder(finds: (Listed, Listed) -> bool)
  {
    forall w, r :: (finds(w, r) ==> DeleteMatches(w, r)) && finds(w, w)
  }

  predicate Shadowed(kept: seq<Listed>, r: Listed)
  {
    exists i :: 0 <= i < |kept| && DeleteMatches(r, kept[i])
  }

  /** What is left: foreign rules, shadowed rules, and rules whose deletion failed. */
  function Kept(rules: seq<Listed>, me: string, works: seq<bool>): (kept: seq<Listed>)
    requires |works| == |rules|
  {
    if rules == [] then []
    else
      var n := |rules| - 1;
      var kept := Kept(rules[..n], me, works[..n]);
      if Owned(rules[n], me) && !Shadowed(kept, rules[n]) && works[n] then kept else kept + [rules[n]]
  }

  class Kernel {
    var rules: seq<Listed>

    constructor (rules: seq<Listed>)
      ensures this.rules == rules
    {
      this.rules := rules;
    }

    /** Deletes the first rule found, unless the command fails. */
    method Delete(want: Listed, finds: (Listed, Listed) -> bool, works: bool) returns (ok: bool)
      modifies this
      ensures !ok ==> rules == old(rules)
      ensures ok == (works && exists i :: 0 <= i < |old(rules)| && finds(want, old(rules)[i]))
      ensures ok ==> exists i :: 0 <= i < |old(rules)| && finds(want, old(rules)[i])
                                 && (forall k :: 0 <= k < i ==> !finds(want, old(rules)[k]))
                                 && rules == old(rules)[..i] + old(rules)[i + 1..]
    {
      if !works { return false; }
      for i := 0 to |rules|
        invariant rules == old(rules) && forall k :: 0 <= k < i ==> !finds(want, rules[k])
      {
        if finds(want, rules[i]) {
          rules := rules[..i] + rules[i + 1..];
          return true;
        }
      }
      return false;
    }
  }

  method IsShadowed(kept: seq<Listed>, r: Listed) returns (b: bool)
    ensures b == Shadowed(kept, r)
  {
    hide DeleteMatches;
    for i := 0 to |kept|
      invariant forall k :: 0 <= k < i ==> !DeleteMatches(r, kept[k])
    {
      if DeleteMatches(r, kept[i]) { return true; }
    }
    return false;
  }

  /** How many deletions fail. */
  function Failures(rules: seq<Listed>, me: string, works: seq<bool>): nat
    requires |works| == |rules|
  {
    if rules == [] then 0
    else
      var n := |rules| - 1;
      var tried := Owned(rules[n], me) && !Shadowed(Kept(rules[..n], me, works[..n]), rules[n]);
      Failures(rules[..n], me, works[..n]) + if tried && !works[n] then 1 else 0
  }

  lemma OneMore(rules: seq<Listed>, me: string, works: seq<bool>, i: nat)
    requires |works| == |rules| && i < |rules|
    ensures var kept := Kept(rules[..i], me, works[..i]);
            var tried := Owned(rules[i], me) && !Shadowed(kept, rules[i]);
            && Kept(rules[..i + 1], me, works[..i + 1]) == (if tried && works[i] then kept else kept + [rules[i]])
            && Failures(rules[..i + 1], me, works[..i + 1])
               == Failures(rules[..i], me, works[..i]) + if tried && !works[i] then 1 else 0
  {
    hide Owned, Shadowed;
    assert rules[..i + 1][..i] == rules[..i] && works[..i + 1][..i] == works[..i];
  }

  /** unroute for one family: the list is read once and the kernel list changes under the loop. */
  method Unroute(kernel: Kernel, me: string, finds: (Listed, Listed) -> bool, works: seq<bool>) returns (failures: nat)
    requires Finder(finds) && |works| == |kernel.rules|
    modifies kernel
    ensures kernel.rules == Kept(old(kernel.rules), me, works)
    ensures failures == Failures(old(kernel.rules), me, works)
  {
    hide Shadowed, Owned, Kept, Failures, Finder;
    var rules := kernel.rules;
    var kept: seq<Listed> := [];
    failures := 0;
    NothingYet(me);
    Whole(rules);
    Whole(works);
    for i := 0 to |rules|
      invariant kept == Kept(rules[..i], me, works[..i]) && failures == Failures(rules[..i], me, works[..i])
      invariant kernel.rules == kept + rules[i..]
    {
      OneMore(rules, me, works, i);
      var rule := rules[i];
      Uncons(rules, i);
      Shift(kept, rule, rules[i + 1..]);
      var shadowed := IsShadowed(kept, rule);
      if !Owned(rule, me) || shadowed {
        kept := kept + [rule];
        continue;
      }
      var ok := DeleteOwn(kernel, kept, rule, rules[i..], finds, works[i]);
      if !ok {
        failures := failures + 1;
        kept := kept + [rule];
      }
    }
    Whole(kept);
  }

  lemma NothingYet(me: string)
    ensures Kept([], me, []) == [] && Failures([], me, []) == 0
  {
  }

  /** One deletion: it removes the rule itself and nothing before it. */
  method DeleteOwn(kernel: Kernel, ghost kept: seq<Listed>, rule: Listed, ghost rest: seq<Listed>,
                   finds: (Listed, Listed) -> bool, works: bool) returns (ok: bool)
    requires Finder(finds) && !Shadowed(kept, rule) && |rest| > 0 && rest[0] == rule && kernel.rules == kept + rest
    modifies kernel
    ensures ok == works && kernel.rules == kept + if ok then rest[1..] else rest
  {
    hide Shadowed, Finder;
    FindsItself(finds, kept, rule, rest);
    ghost var before := kernel.rules;
    ok := kernel.Delete(rule, finds, works);
    assert before[..|kept|] == kept && before[|kept| + 1..] == rest[1..];
    assert works ==> finds(rule, before[|kept|]);
  }

  /** With nothing kept that deletion might hit, the kernel finds the rule itself first. */
  lemma FindsItself(finds: (Listed, Listed) -> bool, kept: seq<Listed>, r: Listed, rest: seq<Listed>)
    requires Finder(finds) && !Shadowed(kept, r) && |rest| > 0 && rest[0] == r
    ensures var rules := kept + rest;
            finds(r, rules[|kept|]) && forall k :: 0 <= k < |kept| ==> !finds(r, rules[k])
  {
    hide DeleteMatches;
  }

  // ---- what cleanup guarantees ----

  function Foreign(rules: seq<Listed>, me: string): seq<Listed>
  {
    if rules == [] then []
    else
      var front, last := Foreign(rules[..|rules| - 1], me), rules[|rules| - 1];
      if Owned(last, me) then front else front + [last]
  }

  lemma ForeignAppend(rules: seq<Listed>, r: Listed, me: string)
    ensures Foreign(rules + [r], me) == Foreign(rules, me) + if Owned(r, me) then [] else [r]
  {
    assert (rules + [r])[..|rules|] == rules;
  }

  /** Every foreign rule stays, in order, whatever fails. */
  lemma {:induction false} ForeignRulesStay(rules: seq<Listed>, me: string, works: seq<bool>)
    requires |works| == |rules|
    ensures Foreign(Kept(rules, me, works), me) == Foreign(rules, me)
  {
    hide Owned, Shadowed;
    if rules != [] {
      var n := |rules| - 1;
      ForeignRulesStay(rules[..n], me, works[..n]);
      ForeignAppend(Kept(rules[..n], me, works[..n]), rules[n], me);
    }
  }

  /** Nothing is left that was not there. */
  lemma {:induction false} NothingIsAdded(rules: seq<Listed>, me: string, works: seq<bool>)
    requires |works| == |rules|
    ensures forall r :: r in Kept(rules, me, works) ==> r in rules
  {
    hide Owned, Shadowed;
    if rules != [] {
      var n := |rules| - 1;
      NothingIsAdded(rules[..n], me, works[..n]);
    }
  }

  lemma TaggedRulesMatchTagged(r: Listed, older: Listed)
    requires Value(r, "protocol") == PROTOCOL && DeleteMatches(r, older)
    ensures Value(older, "protocol") == PROTOCOL
  {
    assert COMPARED[2] == "protocol";
    assert Agrees(r, older, COMPARED[2]);
  }

  /** When deletions succeed and only Sora uses its protocol number, no tagged rule is left. */
  lemma {:induction false} TaggedRulesGo(rules: seq<Listed>, me: string, works: seq<bool>)
    requires |works| == |rules| && (forall i :: 0 <= i < |works| ==> works[i])
    requires forall r :: r in rules && Value(r, "protocol") == PROTOCOL ==> Owned(r, me)
    ensures forall r :: r in Kept(rules, me, works) ==> Value(r, "protocol") != PROTOCOL
  {
    hide Owned, DeleteMatches, Value;
    if rules != [] {
      var n := |rules| - 1;
      TaggedRulesGo(rules[..n], me, works[..n]);
      var kept, last := Kept(rules[..n], me, works[..n]), rules[n];
      if Value(last, "protocol") == PROTOCOL && Shadowed(kept, last) {
        var i :| 0 <= i < |kept| && DeleteMatches(last, kept[i]);
        TaggedRulesMatchTagged(last, kept[i]);
      }
    }
  }

  /** Cleaning up again changes nothing: what was left is foreign or shadowed. */
  lemma {:induction false} CleanupSettles(rules: seq<Listed>, me: string, works: seq<bool>, again: seq<bool>)
    requires |works| == |rules| && (forall i :: 0 <= i < |works| ==> works[i])
    requires |again| == |Kept(rules, me, works)|
    ensures Kept(Kept(rules, me, works), me, again) == Kept(rules, me, works)
  {
    hide Owned, DeleteMatches;
    if rules != [] {
      var n := |rules| - 1;
      var kept := Kept(rules[..n], me, works[..n]);
      CleanupSettles(rules[..n], me, works[..n], again[..|kept|]);
      var all := Kept(rules, me, works);
      if all != kept {
        assert all == kept + [rules[n]] && all[..|kept|] == kept;
      } else {
        assert again[..|kept|] == again;
      }
    }
  }

  // ---- what may be claimed ----

  /** The lookup deleteMatches describes is itself one the kernel could use. */
  lemma DeleteMatchesIsAFinder()
    ensures Finder(DeleteMatches)
  {
  }

  /** Only rules at the reserved priorities, or bound to the Sora device, in Sora's or the main table, are claimed. */
  lemma OnlyReservedRulesAreOwned(r: Listed, me: string)
    requires Owned(r, me)
    ensures Describable(r)
    ensures Value(r, "protocol") in {"", "0", "2", PROTOCOL}
    ensures Value(r, "table") in {TABLE, MAIN, "2022"} || (Value(r, "table") == "" && Value(r, "goto") == PRIORITY_MAIN)
    ensures Value(r, "oif") == TUN_DEVICE || exists n :: Atoi(Value(r, "priority")) == Some(n) && 5333 <= n <= 5339
    ensures Value(r, "table") == "2022" ==> Value(r, "oif") == TUN_DEVICE
  {
    hide Atoi, Describable;
  }

  /** The attributes of the rules earlier versions installed; `v` is the device, address or user. */
  function LegacyValue(priority: nat, v: string, key: string): Option<string>
  {
    if key == "priority" then Some(Itoa(priority))
    else if key == "src" then Some(if priority == 5334 || priority == 5335 then v else "all")
    else if key == "table" then Some(if priority == 5335 || priority == 5337 || priority == 5339 then TABLE else MAIN)
    else if key == "oif" then (if priority == 5333 then Some(v) else None)
    else if key == "uid_start" || key == "uid_end" then (if priority == 5336 then Some(v) else None)
    else if key == "iif" then (if priority >= 5337 then Some("lo") else None)
    else if key == "ipproto" then (if priority == 5337 then Some("ipproto-17") else None)
    else if key == "dport" then (if priority == 5337 then Some("53") else None)
    else if key == "dport_mask" then (if priority == 5337 then Some("0xffff") else None)
    else if key == "suppress_prefixlen" then (if priority == 5338 then Some("0") else None)
    else None
  }

  function LegacyRule(priority: nat, v: string): Listed
  {
    map key | key in KNOWN && LegacyValue(priority, v, key).Some? :: LegacyValue(priority, v, key).value
  }

  lemma LegacyListing(priority: nat, v: string, key: string)
    requires key in KNOWN
    ensures Value(LegacyRule(priority, v), key) == match LegacyValue(priority, v, key) case None => "" case Some(w) => w
    ensures key in LegacyRule(priority, v) <==> LegacyValue(priority, v, key).Some?
  {
    hide LegacyValue;
  }

  /** The attributes a legacy rule of each priority carries. */
  function LegacyKeys(priority: nat): set<string>
  {
    {"priority", "src", "table", "protocol"} +
    if priority == 5333 then {"oif"}
    else if priority == 5336 then {"uid_start", "uid_end"}
    else if priority == 5337 then {"iif", "ipproto", "dport", "dport_mask"}
    else if priority == 5338 then {"iif", "suppress_prefixlen"}
    else if priority == 5339 then {"iif"}
    else {}
  }

  lemma LegacyHasNoMore(priority: nat, v: string)
    requires 5333 <= priority <= 5339
    ensures LegacyRule(priority, v).Keys <= LegacyKeys(priority)
  {
    hide Itoa;
    forall key | key in LegacyRule(priority, v) ensures key in LegacyKeys(priority) {
      assert LegacyValue(priority, v, key).Some?;
    }
  }

  lemma LegacyIsRecognised(priority: nat, v: string, me: string)
    requires 5333 <= priority <= 5339 && v != "" && v != "all" && (priority == 5336 ==> v == me)
    ensures var r := LegacyRule(priority, v);
            Legacy(r, priority, me).Some? && r.Keys <= Legacy(r, priority, me).value && Untagged(r)
  {
    LegacyListing(priority, v, "table");
    LegacyListing(priority, v, "src");
    LegacyListing(priority, v, "oif");
    LegacyListing(priority, v, "iif");
    LegacyListing(priority, v, "uid_start");
    LegacyListing(priority, v, "uid_end");
    LegacyListing(priority, v, "ipproto");
    LegacyListing(priority, v, "dport");
    LegacyListing(priority, v, "dport_mask");
    LegacyListing(priority, v, "suppress_prefixlen");
    LegacyListing(priority, v, "protocol");
    LegacyHasNoMore(priority, v);
    hide Value, Itoa, LegacyRule;
    var r := LegacyRule(priority, v);
    assert Legacy(r, priority, me).Some? && LegacyKeys(priority) <= Legacy(r, priority, me).value;
  }

  lemma LegacyLooksAtItsKeys(a: Listed, b: Listed, priority: nat, me: string)
    requires forall key :: key in LegacyKeys(priority) ==> Value(a, key) == Value(b, key)
    requires 5333 <= priority <= 5339
    ensures Legacy(a, priority, me) == Legacy(b, priority, me) && (Untagged(a) <==> Untagged(b)) && (Tagged(a) ==> !Untagged(b))
  {
    hide Value;
  }

  /** Any attribute a legacy rule does not carry, known or not, leaves the rest of it as listed. */
  lemma ExtraKeepsTheRest(priority: nat, v: string, extra: string, w: string)
    requires extra !in LegacyKeys(priority)
    ensures var old_, r := LegacyRule(priority, v), LegacyRule(priority, v)[extra := w];
            && (forall key :: key in LegacyKeys(priority) ==> Value(r, key) == Value(old_, key))
            && (forall key :: key != extra ==> (key in r <==> key in old_) && Value(r, key) == Value(old_, key))
  {
    hide LegacyRule, LegacyKeys;
  }

  lemma NotBoundToTun(priority: nat, v: string, extra: string, w: string)
    requires 5333 <= priority <= 5339 && extra !in LegacyKeys(priority) && v != "all"
    ensures !BoundToTun(LegacyRule(priority, v)[extra := w], priority)
  {
    var r := LegacyRule(priority, v)[extra := w];
    ExtraKeepsTheRest(priority, v, extra, w);
    LegacyListing(priority, v, "table");
    LegacyListing(priority, v, "src");
    LegacyListing(priority, v, "protocol");
    LegacyListing(priority, v, "oif");
    LegacyListing(priority, v, "oif_detached");
    if priority == 5339 || priority == 5337 {
      FourAttributes(priority, v, extra, w);
      hide LegacyRule, Value, Itoa;
      assert extra != "oif" ==> Value(r, "oif") == "";
      assert extra == "oif" ==> "oif_detached" !in r;
    } else {
      hide LegacyRule, Value, Itoa;
      assert Value(r, "table") == MAIN || Value(r, "src") == v;
    }
  }

  lemma ExtraIsForeign(priority: nat, v: string, me: string, extra: string, w: string)
    requires 5333 <= priority <= 5339 && extra !in LegacyKeys(priority) && v != "all"
    ensures var r := LegacyRule(priority, v)[extra := w];
            && Legacy(r, priority, me) == Legacy(LegacyRule(priority, v), priority, me)
            && Value(r, "priority") == Itoa(priority) && Untagged(r) && !Tagged(r) && !BoundToTun(r, priority)
  {
    var old_, r := LegacyRule(priority, v), LegacyRule(priority, v)[extra := w];
    LegacyListing(priority, v, "priority");
    LegacyListing(priority, v, "protocol");
    ExtraKeepsTheRest(priority, v, extra, w);
    NotBoundToTun(priority, v, extra, w);
    assert Untagged(old_);
    hide LegacyRule, LegacyValue, Itoa, BoundToTun;
    LegacyLooksAtItsKeys(r, old_, priority, me);
    hide Legacy;
  }

  /** With one more attribute these two have five or more, so the bound-interface shape needs a tag or a mark. */
  lemma FourAttributes(priority: nat, v: string, extra: string, w: string)
    requires (priority == 5339 || priority == 5337) && extra !in LegacyKeys(priority)
    ensures |LegacyRule(priority, v)[extra := w]| >= 5
  {
    hide Itoa;
    LegacyListing(priority, v, "priority");
    LegacyListing(priority, v, "src");
    LegacyListing(priority, v, "table");
    LegacyListing(priority, v, "iif");
    var r := LegacyRule(priority, v)[extra := w];
    var some := {"priority", "src", "table", "iif", extra};
    assert some <= r.Keys;
    hide LegacyRule, LegacyValue, Value;
    assert |some| == 5;
    Smaller(some, r.Keys);
  }

  lemma Smaller(a: set<string>, b: set<string>)
    requires a <= b
    ensures |a| <= |b|
  {
    assert b == a + (b - a);
  }

  /** Rules left by earlier versions are recognised at every reserved priority, unless anything else is selected. */
  lemma LegacyRulesAreOwned(priority: nat, v: string, me: string, extra: string, w: string)
    requires 5333 <= priority <= 5339 && v != "" && v != "all" && (priority == 5336 ==> v == me)
    requires extra !in LegacyKeys(priority)
    ensures Owned(LegacyRule(priority, v), me) && !Owned(LegacyRule(priority, v)[extra := w], me)
  {
    var r := LegacyRule(priority, v);
    LegacyIsRecognised(priority, v, me);
    LegacyListing(priority, v, "priority");
    AtoiReadsBack(priority);
    assert Describable(r);
    ExtraIsForeign(priority, v, me, extra, w);
    AllowedIs(r, priority, me);
    assert extra in r[extra := w].Keys;
    hide LegacyRule, Legacy, LegacyKeys, Untagged, Atoi, Itoa, BoundToTun, Tagged, Describable, Value;
  }

  lemma AllowedIs(r: Listed, priority: int, me: string)
    requires 5333 <= priority && Legacy(r, priority, me).Some?
    ensures Legacy(r, priority, me).value <= LegacyKeys(priority)
  {
    hide Value;
  }
}
