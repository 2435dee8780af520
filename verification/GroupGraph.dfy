/** Nested groups: the depth-first cycle check and what a validated plan guarantees. */
module GroupGraph {

  type Graph = map<string, seq<string>>

  /** One group lists another as a member. */
  ghost predicate Edge(g: Graph, a: string, b: string)
  {
    a in g && b in g && b in g[a]
  }

  ghost predicate Walk(g: Graph, p: seq<string>)
  {
    |p| > 0 && forall i :: 0 <= i < |p| - 1 ==> Edge(g, p[i], p[i + 1])
  }

  ghost predicate Last(p: seq<string>, x: string)
  {
    |p| > 0 && p[|p| - 1] == x
  }

  /** A walk along at least one edge that ends where it began. */
  ghost predicate Cycle(g: Graph, p: seq<string>)
  {
    Walk(g, p) && |p| > 1 && p[0] == p[|p| - 1]
  }

  ghost predicate Acyclic(g: Graph)
  {
    forall p :: !Cycle(g, p)
  }

  /** A cycle of groups can be reached from the start. */
  ghost predicate ReachesCycle(g: Graph, start: string)
  {
    exists p, c :: Walk(g, p) && p[0] == start && Cycle(g, c) && Last(p, c[0])
  }

  /** The walk comes back to one of its own groups or to a group already on the stack. */
  ghost predicate Returns(g: Graph, on: set<string>, p: seq<string>)
  {
    Walk(g, p) && (p[|p| - 1] in on || p[|p| - 1] in p[..|p| - 1])
  }

  ghost predicate Found(g: Graph, start: string, on: set<string>)
  {
    exists p :: Returns(g, on, p) && p[0] == start
  }

  /** Following one member: the search from a group succeeds through that member. */
  lemma ReturnsThrough(g: Graph, start: string, on: set<string>, m: string)
    requires Edge(g, start, m) && Found(g, m, on + {start})
    ensures Found(g, start, on)
  {
    var q :| Returns(g, on + {start}, q) && q[0] == m;
    var p := [start] + q;
    assert Walk(g, p);
    assert p[..|p| - 1] == [start] + q[..|q| - 1];
    assert start in p[..|p| - 1];
    assert Returns(g, on, p);
  }

  /** A search that succeeds off the stack succeeds through some member. */
  lemma ReturnsByMember(g: Graph, start: string, on: set<string>) returns (m: string)
    requires Found(g, start, on) && start !in on
    ensures Edge(g, start, m) && Found(g, m, on + {start})
  {
    var p :| Returns(g, on, p) && p[0] == start;
    assert |p| > 1;
    m := p[1];
    var q := p[1..];
    assert Edge(g, p[0], p[1]);
    forall i | 0 <= i < |q| - 1 ensures Edge(g, q[i], q[i + 1]) { assert Edge(g, p[i + 1], p[i + 2]); }
    assert p[..|p| - 1] == [start] + q[..|q| - 1];
    assert Returns(g, on + {start}, q);
  }

  /** The shared mark set of one search. */
  class Marks {
    var on: set<string>

    constructor ()
      ensures on == {}
    {
      on := {};
    }
  }

  /** groupCycle: marks are restored on every return. */
  method Search(group: string, members: Graph, visiting: Marks) returns (found: bool)
    modifies visiting
    ensures found <==> Found(members, group, old(visiting.on))
    ensures visiting.on == old(visiting.on)
    decreases |members.Keys - visiting.on|
  {
    hide Edge, Walk, Found, Returns;
    if group in visiting.on {
      OnStack(members, group, visiting.on);
      return true;
    }
    ghost var before := visiting.on;
    visiting.on := visiting.on + {group};
    var list := if group in members then members[group] else [];
    found := false;
    for i := 0 to |list|
      invariant visiting.on == before + {group} && !found
      invariant forall k :: 0 <= k < i ==> !(list[k] in members && Found(members, list[k], before + {group}))
    {
      var m := list[i];
      if m in members {
        Shrinks(members.Keys, before, group);
        var deeper := Search(m, members, visiting);
        if deeper {
          EdgeTo(members, group, m);
          ReturnsThrough(members, group, before, m);
          visiting.on := visiting.on - {group};
          return true;
        }
      }
    }
    if Found(members, group, before) {
      ghost var m := ReturnsByMember(members, group, before);
      EdgeOf(members, group, m);
    }
    visiting.on := visiting.on - {group};
  }

  lemma OnStack(g: Graph, start: string, on: set<string>)
    requires start in on
    ensures Found(g, start, on)
  {
    assert Returns(g, on, [start]);
  }

  lemma Shrinks(keys: set<string>, on: set<string>, group: string)
    requires group in keys && group !in on
    ensures |keys - (on + {group})| < |keys - on|
  {
    assert keys - on == (keys - (on + {group})) + {group};
  }

  lemma EdgeTo(g: Graph, a: string, b: string)
    requires a in g && b in g && b in g[a]
    ensures Edge(g, a, b)
  {
  }

  lemma EdgeOf(g: Graph, a: string, b: string)
    requires Edge(g, a, b)
    ensures a in g && b in g && b in g[a]
  {
  }

  /** With nothing on the stack the search answers exactly "a cycle is reachable". */
  lemma FoundIsReachability(g: Graph, start: string)
    ensures Found(g, start, {}) <==> ReachesCycle(g, start)
  {
    if Found(g, start, {}) {
      var p :| Returns(g, {}, p) && p[0] == start;
      var i :| 0 <= i < |p| - 1 && p[i] == p[|p| - 1];
      var c := Segment(g, p, i);
      assert Walk(g, p[..i + 1]) && p[..i + 1][0] == start && Last(p[..i + 1], c[0]);
    }
    if ReachesCycle(g, start) {
      var p, c :| Walk(g, p) && p[0] == start && Cycle(g, c) && Last(p, c[0]);
      var q := p + c[1..];
      JoinedWalk(g, p, c);
      assert q[|p| - 1] == q[|q| - 1] && q[..|q| - 1][|p| - 1] == q[|p| - 1];
      assert Returns(g, {}, q);
    }
  }

  lemma Segment(g: Graph, p: seq<string>, i: nat) returns (c: seq<string>)
    requires Walk(g, p) && i < |p| - 1 && p[i] == p[|p| - 1]
    ensures Cycle(g, c) && c[0] == p[i]
  {
    c := p[i..];
    forall k | 0 <= k < |c| - 1 ensures Edge(g, c[k], c[k + 1]) { assert Edge(g, p[i + k], p[i + k + 1]); }
  }

  lemma JoinedWalk(g: Graph, p: seq<string>, c: seq<string>)
    requires Walk(g, p) && Walk(g, c) && Last(p, c[0])
    ensures Walk(g, p + c[1..])
  {
    var q := p + c[1..];
    forall k | 0 <= k < |q| - 1 ensures Edge(g, q[k], q[k + 1]) {
      if k < |p| - 1 {
        assert Edge(g, p[k], p[k + 1]);
      } else {
        assert Edge(g, c[k - |p| + 1], c[k - |p| + 2]);
      }
    }
  }

  /** Searching from every group finds nothing exactly when there is no cycle at all. */
  lemma NothingFoundIsAcyclic(g: Graph)
    ensures (forall a :: a in g ==> !Found(g, a, {})) <==> Acyclic(g)
  {
    hide Walk, Returns;
    if a :| a in g && Found(g, a, {}) {
      FoundIsReachability(g, a);
    }
    if !Acyclic(g) {
      var c :| Cycle(g, c);
      CycleIsFound(g, c);
    }
  }

  lemma CycleIsFound(g: Graph, c: seq<string>)
    requires Cycle(g, c)
    ensures c[0] in g && Found(g, c[0], {})
  {
    assert Edge(g, c[0], c[1]);
    assert c[..|c| - 1][0] == c[0];
    assert Returns(g, {}, c);
  }

  /** Pigeonhole: a walk longer than the number of groups repeats one. */
  lemma {:induction false} LongWalkRepeats(p: seq<string>, nodes: set<string>)
    requires |p| > |nodes| && forall x :: x in p ==> x in nodes
    ensures exists i, j :: 0 <= i < j < |p| && p[i] == p[j]
  {
    var x := p[|p| - 1];
    var front := p[..|p| - 1];
    if i :| 0 <= i < |front| && front[i] == x {
      assert p[i] == p[|p| - 1];
    } else {
      LongWalkRepeats(front, nodes - {x});
      var i, j :| 0 <= i < j < |front| && front[i] == front[j];
      assert p[i] == p[j];
    }
  }

  /** In an acyclic graph no walk visits more groups than there are. */
  lemma WalksAreShort(g: Graph, p: seq<string>)
    requires Acyclic(g) && Walk(g, p) && p[0] in g
    ensures |p| <= |g|
  {
    if |p| > |g| {
      forall x | x in p ensures x in g.Keys {
        var i :| 0 <= i < |p| && p[i] == x;
        if i > 0 { assert Edge(g, p[i - 1], p[i]); }
      }
      LongWalkRepeats(p, g.Keys);
      var i, j :| 0 <= i < j < |p| && p[i] == p[j];
      var q := p[..j + 1];
      assert Walk(g, q) && q[i] == q[|q| - 1];
      var c := Segment(g, q, i);
      assert false;
    }
  }
}
