/** Plan names and engine names: the inverse of tag assignment and the group report built on it. */
module PlanNames {
  import opened Text
  import opened Plans
  import opened SingBoxTags

  ghost predicate Inverse(names: map<string, string>, tags: map<string, string>)
  {
    && (forall id :: id in tags ==> tags[id] in names && names[tags[id]] == id)
    && (forall tag :: tag in names ==> names[tag] in tags && tags[names[tag]] == tag)
  }

  /** PlanNames: every tag back to the id it was made for. */
  method Invert(p: Plan) returns (names: Option<map<string, string>>)
    ensures names.Some? <==> Assigned(p).Some?
    ensures names.Some? ==> Inverse(names.value, Assigned(p).value.tags)
  {
    hide Assigned, Inverse;
    var tagger := new Tagger();
    var ok := tagger.AssignTags(p);
    if !ok { return None; }
    TagsAreInjective(p);
    var out := InvertTags(tagger.tags);
    return Some(out);
  }

  method InvertTags(tags: map<string, string>) returns (out: map<string, string>)
    requires Injective(tags)
    ensures Inverse(out, tags)
  {
    out := map[];
    var todo := tags.Keys;
    while todo != {}
      invariant todo <= tags.Keys
      invariant forall tag :: tag in out ==> out[tag] in tags && tags[out[tag]] == tag
      invariant forall id :: id in tags && id !in todo ==> tags[id] in out && out[tags[id]] == id
      decreases |todo|
    {
      var id :| id in todo;
      todo := todo - {id};
      out := out[tags[id] := id];
    }
  }

  /** A plan name for an engine name; names the plan does not know stay as they are. */
  function PlanName(names: map<string, string>, name: string): string
  {
    if name in names then names[name] else name
  }

  function EngineName(tags: map<string, string>, name: string): string
  {
    if name in tags then tags[name] else name
  }

  /** engineName: a search through the inverse, in any order. */
  method FindEngineName(names: map<string, string>, name: string, ghost tags: map<string, string>) returns (r: string)
    requires Inverse(names, tags)
    ensures r == EngineName(tags, name)
  {
    var todo := names.Keys;
    while todo != {}
      invariant todo <= names.Keys
      invariant forall tag :: tag in names && tag !in todo ==> names[tag] != name
      decreases |todo|
    {
      var tag :| tag in todo;
      if names[tag] == name { return tag; }
      todo := todo - {tag};
    }
    return name;
  }

  /** There and back changes nothing, except for a foreign name that happens to be a tag. */
  lemma NamesComeBack(tags: map<string, string>, names: map<string, string>, name: string)
    requires Inverse(names, tags)
    ensures PlanName(names, EngineName(tags, name)) == name <==> name in tags || name !in names
  {
    if name !in tags && name in names { assert names[name] in tags; }
  }

  /** And the other way round: what the engine reports can be asked for again. */
  lemma ReportsComeBack(tags: map<string, string>, names: map<string, string>, tag: string)
    requires Inverse(names, tags)
    ensures EngineName(tags, PlanName(names, tag)) == tag <==> tag in names || tag !in tags
  {
    if tag !in names && tag in tags { assert tags[tag] in names; }
  }

  // ---- the group report ----

  datatype Status = Status(name: string, selected: string, all: seq<string>, latency: map<string, int>)

  function PlanNamesOf(names: map<string, string>, all: seq<string>): (r: seq<string>)
    ensures |r| == |all|
  {
    seq(|all|, i requires 0 <= i < |all| => PlanName(names, all[i]))
  }

  /** Each delay is filed under the plan name of a proxy it was measured for. */
  ghost predicate Refiled(names: map<string, string>, before: map<string, int>, after: map<string, int>)
  {
    && (forall t :: t in before ==> PlanName(names, t) in after)
    && (forall n :: n in after ==> exists t :: t in before && PlanName(names, t) == n && before[t] == after[n])
  }

  ghost predicate Translated(names: map<string, string>, before: Status, after: Status)
  {
    && after.name == PlanName(names, before.name)
    && after.selected == PlanName(names, before.selected)
    && after.all == PlanNamesOf(names, before.all)
    && Refiled(names, before.latency, after.latency)
  }

  method Refile(names: map<string, string>, latency: map<string, int>) returns (r: map<string, int>)
    ensures Refiled(names, latency, r)
  {
    hide PlanName;
    r := map[];
    var todo := latency.Keys;
    while todo != {}
      invariant todo <= latency.Keys
      invariant forall t :: t in latency && t !in todo ==> PlanName(names, t) in r
      invariant forall n :: n in r ==> exists t :: t in latency && PlanName(names, t) == n && latency[t] == r[n]
      decreases |todo|
    {
      var t :| t in todo;
      todo := todo - {t};
      r := r[PlanName(names, t) := latency[t]];
    }
  }

  /** Groups rewrites every entry of the engine's report in place. */
  method TranslateGroups(names: map<string, string>, groups: array<Status>)
    modifies groups
    ensures forall i :: 0 <= i < groups.Length ==> Translated(names, old(groups[i]), groups[i])
  {
    hide Translated, PlanName, Refiled;
    for i := 0 to groups.Length
      invariant forall k :: 0 <= k < i ==> Translated(names, old(groups[k]), groups[k])
      invariant forall k :: i <= k < groups.Length ==> groups[k] == old(groups[k])
    {
      var g := groups[i];
      var all := TranslateAll(names, g.all);
      var latency := Refile(names, g.latency);
      groups[i] := Status(PlanName(names, g.name), PlanName(names, g.selected), all, latency);
      IsTranslated(names, g, groups[i]);
    }
  }

  lemma IsTranslated(names: map<string, string>, before: Status, after: Status)
    requires after.name == PlanName(names, before.name) && after.selected == PlanName(names, before.selected)
    requires after.all == PlanNamesOf(names, before.all) && Refiled(names, before.latency, after.latency)
    ensures Translated(names, before, after)
  {
  }

  method TranslateAll(names: map<string, string>, all: seq<string>) returns (r: seq<string>)
    ensures r == PlanNamesOf(names, all)
  {
    r := [];
    for j := 0 to |all|
      invariant |r| == j && forall k :: 0 <= k < j ==> r[k] == PlanName(names, all[k])
    {
      r := r + [PlanName(names, all[j])];
    }
  }

  /** The tag a group member is rendered with. */
  function MemberTag(tags: map<string, string>, id: string): string
  {
    if id == "direct" then "direct" else if id in tags then tags[id] else id
  }

  /** What the engine reports about a rendered group of the plan. */
  function Reported(tags: map<string, string>, g: Group, selected: string): Status
  {
    Status(EngineName(tags, g.name), MemberTag(tags, selected),
           seq(|g.members|, i requires 0 <= i < |g.members| => MemberTag(tags, g.members[i])), map[])
  }

  /** A rendered group is reported back under the plan's own names, member by member. */
  lemma GroupsReportPlanNames(p: Plan, names: map<string, string>, g: Group, selected: string, after: Status)
    requires Assigned(p).Some? && Inverse(names, Assigned(p).value.tags) && "direct" !in Assigned(p).value.tags
    requires g in p.groups && selected in g.members
    requires forall m :: m in g.members ==> m == "direct" || m in Assigned(p).value.tags
    requires Translated(names, Reported(Assigned(p).value.tags, g, selected), after)
    ensures after.name == g.name && after.selected == selected && after.all == g.members
  {
    hide Assigned, Refiled;
    TagsAreInjective(p);
    var tags := Assigned(p).value.tags;
    assert g.name in tags;
    assert "direct" !in names;
    forall m | m in g.members ensures PlanName(names, MemberTag(tags, m)) == m {
    }
    assert forall i :: 0 <= i < |g.members| ==> g.members[i] in g.members;
  }
}
