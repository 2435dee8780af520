/** sing-box tags: unique names for outbounds and groups, and the way back to plan names. */
module SingBoxTags {
  import opened Text
  import opened Plans

  function Numbered(fallback: string, n: nat): string
  {
    fallback + "-" + Itoa(n)
  }

  lemma NumberedInjective(fallback: string, a: nat, b: nat)
    requires Numbered(fallback, a) == Numbered(fallback, b)
    ensures a == b
  {
    PrefixCancels(fallback + "-", Itoa(a), Itoa(b));
    ItoaInjective(a, b);
  }

  /**
   * The first free numbered name. A name found taken is struck from the set: no later number
   * repeats it, so the search ends after at most as many steps as there are names.
   */
  function FreeFrom(fallback: string, used: set<string>, n: nat): (tag: string)
    decreases |used|
  {
    var tag := Numbered(fallback, n);
    if tag !in used then tag
    else FreeFrom(fallback, used - {tag}, n + 1)
  }

  /** The tag is free, it is numbered n or later, and every number before it is taken. */
  lemma {:induction false} FreeFromIsFirst(fallback: string, used: set<string>, n: nat) returns (k: nat)
    ensures k >= n && FreeFrom(fallback, used, n) == Numbered(fallback, k) && Numbered(fallback, k) !in used
    ensures forall i :: n <= i < k ==> Numbered(fallback, i) in used
    decreases |used|
  {
    hide Numbered;
    var tag := Numbered(fallback, n);
    k := n;
    if tag in used {
      k := FreeFromIsFirst(fallback, used - {tag}, n + 1);
      if Numbered(fallback, k) == tag { NumberedInjective(fallback, k, n); }
    }
  }

  /** The trimmed name if it is free, else the fallback, else the fallback with a number. */
  function Unique(name: string, fallback: string, used: set<string>): string
  {
    var tag := TrimSpace(name);
    if tag != "" && tag !in used then tag
    else if fallback !in used then fallback
    else FreeFrom(fallback, used, 2)
  }

  lemma UniqueIsFree(name: string, fallback: string, used: set<string>)
    ensures Unique(name, fallback, used) !in used
  {
    var k := FreeFromIsFirst(fallback, used, 2);
  }

  datatype Tagging = Tagging(tags: map<string, string>, used: set<string>)

  const FRESH := Tagging(map[], {"direct"})

  function Tagged(t: Tagging, key: string, name: string, fallback: string): Tagging
  {
    var tag := Unique(name, fallback, t.used);
    Tagging(t.tags[key := tag], t.used + {tag})
  }

  function TagOutbounds(outbounds: seq<Outbound>): Tagging
  {
    if outbounds == [] then FRESH
    else var o := outbounds[|outbounds| - 1]; Tagged(TagOutbounds(outbounds[..|outbounds| - 1]), o.id, o.name, o.id)
  }

  /** Groups after outbounds; a name that is already a key is refused. */
  function TagGroups(start: Tagging, groups: seq<Group>): Option<Tagging>
  {
    if groups == [] then Some(start)
    else match TagGroups(start, groups[..|groups| - 1])
         case None => None
         case Some(t) =>
           var name := groups[|groups| - 1].name;
           if name in t.tags then None else Some(Tagged(t, name, name, "group"))
  }

  function Assigned(p: Plan): Option<Tagging>
  {
    TagGroups(TagOutbounds(p.outbounds), p.groups)
  }

  ghost predicate Injective(tags: map<string, string>)
  {
    forall a, b :: a in tags && b in tags && tags[a] == tags[b] ==> a == b
  }

  /** Tags are pairwise different, none of them is `direct`, and all are marked used. */
  ghost predicate Sound(t: Tagging)
  {
    && Injective(t.tags) && "direct" in t.used
    && forall a :: a in t.tags ==> t.tags[a] in t.used && t.tags[a] != "direct"
  }

  lemma TaggedIsSound(t: Tagging, key: string, name: string, fallback: string)
    requires Sound(t)
    ensures Sound(Tagged(t, key, name, fallback))
    ensures Tagged(t, key, name, fallback).tags.Keys == t.tags.Keys + {key}
  {
    hide Unique;
    UniqueIsFree(name, fallback, t.used);
  }

  lemma {:induction false} OutboundTagsAreSound(outbounds: seq<Outbound>)
    ensures Sound(TagOutbounds(outbounds)) && TagOutbounds(outbounds).tags.Keys == Ids(outbounds)
  {
    if outbounds != [] {
      hide Sound, Tagged;
      var front, o := outbounds[..|outbounds| - 1], outbounds[|outbounds| - 1];
      OutboundTagsAreSound(front);
      assert outbounds == front + [o];
      TaggedIsSound(TagOutbounds(front), o.id, o.name, o.id);
    }
  }

  /** Assignment succeeds exactly on distinct group names that are no outbound ids. */
  lemma {:induction false} GroupTagsAreSound(start: Tagging, groups: seq<Group>)
    requires Sound(start)
    ensures TagGroups(start, groups).Some? <==> DistinctNames(groups) && Names(groups) !! start.tags.Keys
    ensures TagGroups(start, groups).Some? ==>
              && Sound(TagGroups(start, groups).value)
              && TagGroups(start, groups).value.tags.Keys == start.tags.Keys + Names(groups)
  {
    if groups != [] {
      hide Sound, Tagged;
      var front, g := groups[..|groups| - 1], groups[|groups| - 1];
      GroupTagsAreSound(start, front);
      assert groups == front + [g];
      assert Names(groups) == Names(front) + {g.name};
      if TagGroups(start, front).Some? {
        var t := TagGroups(start, front).value;
        TaggedIsSound(t, g.name, g.name, "group");
        assert g.name in Names(front) ==> exists i :: 0 <= i < |front| && front[i].name == g.name;
      }
    }
  }

  /** Every plan that can be tagged gets different tags for different ids, and never `direct`. */
  lemma TagsAreInjective(p: Plan)
    ensures Assigned(p).Some? <==> DistinctNames(p.groups) && Names(p.groups) !! Ids(p.outbounds)
    ensures Assigned(p).Some? ==>
              && Injective(Assigned(p).value.tags)
              && Assigned(p).value.tags.Keys == Ids(p.outbounds) + Names(p.groups)
              && forall id :: id in Assigned(p).value.tags ==> Assigned(p).value.tags[id] != "direct"
  {
    hide TagOutbounds, TagGroups;
    OutboundTagsAreSound(p.outbounds);
    GroupTagsAreSound(TagOutbounds(p.outbounds), p.groups);
  }

  /** The object that hands out tags. */
  class Tagger {
    var tags: map<string, string>
    var used: set<string>

    ghost function View(): Tagging reads this { Tagging(tags, used) }

    constructor ()
      ensures View() == FRESH
    {
      tags, used := map[], {"direct"};
    }

    method UniqueTag(name: string, fallback: string) returns (tag: string)
      modifies this`used
      ensures tag == Unique(name, fallback, old(used)) && used == old(used) + {tag}
    {
      hide TrimSpace, Numbered;
      tag := TrimSpace(name);
      if tag == "" || tag in used { tag := fallback; }
      var n := 2;
      ghost var left := used;
      while tag in used
        invariant n >= 2 && used == old(used) && left <= used
        invariant n == 2 ==> left == used && (tag !in used ==> tag == Unique(name, fallback, used))
        invariant n == 2 && tag in used ==> Unique(name, fallback, used) == FreeFrom(fallback, used, 2)
        invariant n > 2 ==> tag == Numbered(fallback, n - 1) && Skipped(fallback, used, left, n - 1)
        invariant n > 2 ==> FreeFrom(fallback, left, n - 1) == Unique(name, fallback, used)
        decreases |left| + if n == 2 then 1 else 0
      {
        if n > 2 { StruckLater(fallback, used, left, n - 1); left := left - {tag}; }
        tag := MakeNumbered(fallback, n);
        n := n + 1;
      }
      used := used + {tag};
    }

    static method MakeNumbered(fallback: string, n: nat) returns (tag: string)
      ensures tag == Numbered(fallback, n)
    {
      tag := fallback + "-" + Itoa(n);
    }

    method AssignTags(p: Plan) returns (ok: bool)
      requires View() == FRESH
      modifies this
      ensures ok == Assigned(p).Some? && (ok ==> View() == Assigned(p).value)
    {
      hide Unique;
      for i := 0 to |p.outbounds|
        invariant View() == TagOutbounds(p.outbounds[..i])
      {
        assert p.outbounds[..i + 1][..i] == p.outbounds[..i];
        var o := p.outbounds[i];
        var tag := UniqueTag(o.name, o.id);
        tags := tags[o.id := tag];
      }
      assert p.outbounds[..|p.outbounds|] == p.outbounds;
      ghost var start := View();
      for i := 0 to |p.groups|
        invariant TagGroups(start, p.groups[..i]) == Some(View())
      {
        assert p.groups[..i + 1][..i] == p.groups[..i];
        var g := p.groups[i];
        if g.name in tags {
          RefusedStays(start, p.groups, i + 1);
          return false;
        }
        var tag := UniqueTag(g.name, "group");
        tags := tags[g.name := tag];
      }
      assert p.groups[..|p.groups|] == p.groups;
      ok := true;
    }
  }

  lemma {:induction false} RefusedStays(start: Tagging, groups: seq<Group>, i: nat)
    requires i <= |groups| && TagGroups(start, groups[..i]).None?
    ensures TagGroups(start, groups).None?
    decreases |groups| - i
  {
    if i < |groups| {
      assert groups[..i + 1][..i] == groups[..i];
      RefusedStays(start, groups, i + 1);
    } else {
      assert groups[..i] == groups;
    }
  }

  /** Only earlier numbers of this fallback have been struck. */
  ghost predicate Skipped(fallback: string, used: set<string>, left: set<string>, n: nat)
  {
    forall t :: t in used && t !in left ==> exists k :: 2 <= k < n && t == Numbered(fallback, k)
  }

  /** So the next number is still there to be struck, if it is taken. */
  lemma StruckLater(fallback: string, used: set<string>, left: set<string>, n: nat)
    requires n >= 2 && Skipped(fallback, used, left, n) && Numbered(fallback, n) in used
    ensures Numbered(fallback, n) in left
    ensures Skipped(fallback, used, left - {Numbered(fallback, n)}, n + 1)
  {
    hide Numbered;
    if Numbered(fallback, n) !in left {
      var k :| 2 <= k < n && Numbered(fallback, n) == Numbered(fallback, k);
      NumberedInjective(fallback, n, k);
    }
  }
}
