/** The names mihomo knows servers and groups by. */
module MihomoNames {
  import opened Text
  import opened Plans
  import opened SingBoxTags
  import Mihomo

  /** Which characters are letters or digits, and how many bytes each takes. */
  datatype Script = Script(alnum: char -> bool, width: char -> nat)

  const MAX_NAME := 96

  function Kept(s: Script, c: char): string
  {
    if s.alnum(c) || Joint(c) then [c] else if c == ' ' then "_" else ""
  }

  predicate Joint(c: char) { c == '-' || c == '_' || c == '.' }

  /** The safe characters, up to the one that passes the length limit. */
  function Cleaned(s: Script, src: string, length: nat): string
  {
    if src == [] then []
    else
      var out := Kept(s, src[0]);
      var total := length + if out == [] then 0 else s.width(out[0]);
      if total > MAX_NAME then out else out + Cleaned(s, src[1..], total)
  }

  function TrimJoints(t: string): string
  {
    if t != [] && Joint(t[0]) then TrimJoints(t[1..])
    else if t != [] && Joint(t[|t| - 1]) then TrimJoints(t[..|t| - 1])
    else t
  }

  function Sanitized(s: Script, name: string, fallback: string): string
  {
    var out := TrimJoints(Cleaned(s, if name == "" then fallback else name, 0));
    if out == "" then "server" else out
  }

  /** The name itself, or the first free one with a counter. */
  function UniqueName(name: string, used: set<string>): string
  {
    if name !in used then name else FreeFrom(name, used, 2)
  }

  datatype Names = Names(byId: map<string, string>, used: set<string>)

  function ServerNames(s: Script, outbounds: seq<Outbound>): Names
  {
    if outbounds == [] then Names(map[], {})
    else
      var o, front := outbounds[|outbounds| - 1], ServerNames(s, outbounds[..|outbounds| - 1]);
      var name := UniqueName(Sanitized(s, o.name, o.id), front.used);
      Names(front.byId[o.id := name], front.used + {name})
  }

  function WithGroups(s: Script, byId: map<string, string>, groups: seq<Group>): map<string, string>
  {
    if groups == [] then byId
    else
      var g := groups[|groups| - 1];
      WithGroups(s, byId, groups[..|groups| - 1])[g.name := Sanitized(s, g.name, "")]
  }

  function NamesOf(s: Script, p: Plan): map<string, string>
  {
    WithGroups(s, ServerNames(s, p.outbounds).byId, p.groups)
  }

  // ---- no commas ----

  lemma {:induction false} CleanedIsSafe(s: Script, src: string, length: nat)
    requires !s.alnum(',')
    ensures Mihomo.NoComma(Cleaned(s, src, length))
  {
    if src != [] {
      CleanedIsSafe(s, src[1..], length + if Kept(s, src[0]) == [] then 0 else s.width(Kept(s, src[0])[0]));
    }
  }

  lemma {:induction false} TrimIsSafe(t: string)
    requires Mihomo.NoComma(t)
    ensures Mihomo.NoComma(TrimJoints(t))
  {
    if t != [] && Joint(t[0]) {
      assert forall c :: c in t[1..] ==> c in t;
      TrimIsSafe(t[1..]);
    } else if t != [] && Joint(t[|t| - 1]) {
      assert forall c :: c in t[..|t| - 1] ==> c in t;
      TrimIsSafe(t[..|t| - 1]);
    }
  }

  lemma SanitizedIsSafe(s: Script, name: string, fallback: string)
    requires !s.alnum(',')
    ensures Mihomo.NoComma(Sanitized(s, name, fallback))
  {
    hide Cleaned, TrimJoints;
    var src := if name == "" then fallback else name;
    CleanedIsSafe(s, src, 0);
    TrimIsSafe(Cleaned(s, src, 0));
  }

  lemma UniqueNameIsSafe(name: string, used: set<string>)
    requires Mihomo.NoComma(name)
    ensures Mihomo.NoComma(UniqueName(name, used)) && UniqueName(name, used) !in used
  {
    var k := FreeFromIsFirst(name, used, 2);
    hide FreeFrom;
    assert forall i :: 0 <= i < |Itoa(k)| ==> IsDigit(Itoa(k)[i]);
  }

  lemma {:induction false} ServerNamesAreSafe(s: Script, outbounds: seq<Outbound>)
    requires !s.alnum(',')
    ensures var n := ServerNames(s, outbounds);
            forall id :: id in n.byId ==> Mihomo.NoComma(n.byId[id]) && n.byId[id] in n.used
    ensures DistinctIds(outbounds) ==> var n := ServerNames(s, outbounds);
                                       forall a, b :: a in n.byId && b in n.byId && n.byId[a] == n.byId[b] ==> a == b
    ensures ServerNames(s, outbounds).byId.Keys == Ids(outbounds)
  {
    hide Sanitized, UniqueName;
    if outbounds != [] {
      var front, o := outbounds[..|outbounds| - 1], outbounds[|outbounds| - 1];
      ServerNamesAreSafe(s, front);
      assert outbounds == front + [o];
      SanitizedIsSafe(s, o.name, o.id);
      UniqueNameIsSafe(Sanitized(s, o.name, o.id), ServerNames(s, front).used);
    }
  }

  /** Whatever servers and groups are called, their mihomo names hold no comma, and servers' names differ. */
  lemma NamesAreSafe(s: Script, p: Plan)
    requires !s.alnum(',')
    ensures forall id :: id in NamesOf(s, p) ==> Mihomo.NoComma(NamesOf(s, p)[id])
    ensures DistinctIds(p.outbounds) ==>
              var names := ServerNames(s, p.outbounds).byId;
              forall a, b :: a in names && b in names && names[a] == names[b] ==> a == b
  {
    ServerNamesAreSafe(s, p.outbounds);
    GroupNamesAreSafe(s, ServerNames(s, p.outbounds).byId, p.groups);
  }

  lemma {:induction false} GroupNamesAreSafe(s: Script, byId: map<string, string>, groups: seq<Group>)
    requires !s.alnum(',') && forall id :: id in byId ==> Mihomo.NoComma(byId[id])
    ensures forall id :: id in WithGroups(s, byId, groups) ==> Mihomo.NoComma(WithGroups(s, byId, groups)[id])
  {
    hide Sanitized;
    if groups != [] {
      GroupNamesAreSafe(s, byId, groups[..|groups| - 1]);
      SanitizedIsSafe(s, groups[|groups| - 1].name, "");
    }
  }
}
