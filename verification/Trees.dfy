// Tree-shaped topologies: next hops, distances, and why they do not depend on how the tree is
// looked at.
module Trees {
  import opened Types

  // The nodes with, for each, the node behind every one of its ports.
  datatype Topology = Topology(switches: set<Id>, ports: map<Id, seq<Id>>)

  predicate Adjacent(g: Topology, u: Id, w: Id) {
    u in g.ports && w in g.ports[u]
  }

  predicate IsHost(g: Topology, h: Id) {
    h in g.ports && h !in g.switches
  }

  // Ports lead to distinct other nodes of the network, and every link can be used both ways.
  ghost predicate WellFormed(g: Topology) {
    && g.switches <= g.ports.Keys
    && forall u :: u in g.ports ==>
         Distinct(g.ports[u]) && forall w :: w in g.ports[u] ==> w in g.ports && w != u && Adjacent(g, w, u)
  }

  ghost predicate IsPath(g: Topology, path: seq<Id>) {
    && path != []
    && (forall i :: 0 <= i < |path| ==> path[i] in g.ports)
    && (forall i :: 0 <= i < |path| - 1 ==> Adjacent(g, path[i], path[i + 1]))
  }

  ghost predicate SimplePath(g: Topology, path: seq<Id>, u: Id, s: Id) {
    IsPath(g, path) && Distinct(path) && path[0] == u && path[|path| - 1] == s
  }

  ghost predicate Reaches(g: Topology, u: Id, s: Id) {
    exists path :: SimplePath(g, path, u, s)
  }

  // A tree: one and only one way to get from any node to any other.
  ghost predicate IsTree(g: Topology) {
    && WellFormed(g) && g.ports.Keys != {}
    && (forall u, s :: u in g.ports && s in g.ports ==> Reaches(g, u, s))
    && (forall p, q, u, s :: SimplePath(g, p, u, s) && SimplePath(g, q, u, s) ==> p == q)
  }

  // Every node but the root hangs below its parent.
  datatype Rooting = Rooting(root: Id, parent: map<Id, Id>, depth: map<Id, nat>)

  ghost predicate Roots(r: Rooting, g: Topology) {
    && r.parent.Keys == r.depth.Keys == g.ports.Keys
    && r.root in g.ports && r.depth[r.root] == 0
    && (forall u :: u in g.ports && u != r.root ==>
          r.parent[u] in g.ports && r.depth[u] == r.depth[r.parent[u]] + 1)
    && (forall u, w :: u in g.ports && w in g.ports ==>
          (Adjacent(g, u, w) <==> (u != r.root && r.parent[u] == w) || (w != r.root && r.parent[w] == u)))
  }

  ghost predicate Rooted(r: Rooting, g: Topology) {
    WellFormed(g) && Roots(r, g)
  }

  lemma ExtendPath(g: Topology, u: Id, rest: seq<Id>, s: Id)
    requires rest != [] && SimplePath(g, rest, rest[0], s) && Adjacent(g, u, rest[0]) && u !in rest
    ensures SimplePath(g, [u] + rest, u, s)
  {
    var path := [u] + rest;
    assert forall i :: 0 < i < |path| ==> path[i] == rest[i - 1] && path[i] in rest;
    forall i | 0 <= i < |path| - 1
      ensures Adjacent(g, path[i], path[i + 1])
    {
      assert i > 0 ==> Adjacent(g, rest[i - 1], rest[i]);
    }
  }

  // ---- Every tree can be hung up at any node ----

  ghost function ThePath(g: Topology, u: Id, s: Id): (path: seq<Id>)
    requires IsTree(g) && u in g.ports && s in g.ports
    ensures SimplePath(g, path, u, s)
  {
    assert Reaches(g, u, s);
    var path :| SimplePath(g, path, u, s);
    path
  }

  lemma PathTail(g: Topology, path: seq<Id>, u: Id, s: Id, i: nat)
    requires SimplePath(g, path, u, s) && i < |path|
    ensures SimplePath(g, path[i..], path[i], s)
  {
    var rest := path[i..];
    assert forall k :: 0 <= k < |rest| ==> rest[k] == path[i + k];
    forall k | 0 <= k < |rest| - 1
      ensures Adjacent(g, rest[k], rest[k + 1])
    {
      assert Adjacent(g, path[i + k], path[i + k + 1]);
    }
  }

  // Of two neighbours, one is the first stop of the other on its way to the root.
  lemma NeighboursOnPath(g: Topology, root: Id, u: Id, w: Id)
    requires IsTree(g) && root in g.ports && Adjacent(g, u, w)
    ensures w in g.ports
    ensures var p, q := ThePath(g, u, root), ThePath(g, w, root); p == [u] + q || q == [w] + p
  {
    var p, q := ThePath(g, u, root), ThePath(g, w, root);
    if w in p {
      var i :| 0 <= i < |p| && p[i] == w;
      PathTail(g, p, u, root, i);
      assert p[i..] == q;
      assert u !in q by {
        assert forall k :: 0 <= k < |q| ==> q[k] == p[i + k];
      }
      ExtendPath(g, u, q, root);
      assert [u] + q == p;
    } else {
      assert Adjacent(g, w, u);
      ExtendPath(g, w, p, root);
      assert [w] + p == q;
    }
  }

  ghost function RootedAt(g: Topology, root: Id): Rooting
    requires IsTree(g) && root in g.ports
  {
    Rooting(root,
            map u: Id | u in g.ports :: if |ThePath(g, u, root)| > 1 then ThePath(g, u, root)[1] else root,
            map u: Id | u in g.ports :: |ThePath(g, u, root)| - 1)
  }

  lemma PathStep(g: Topology, root: Id, u: Id)
    requires IsTree(g) && root in g.ports && u in g.ports && u != root
    ensures var p := ThePath(g, u, root);
      && |p| > 1 && p[1] in g.ports && ThePath(g, p[1], root) == p[1..] && Adjacent(g, u, p[1])
  {
    var p := ThePath(g, u, root);
    assert |p| > 1;
    PathTail(g, p, u, root, 1);
    assert Adjacent(g, p[0], p[1]);
  }

  lemma RootPath(g: Topology, root: Id)
    requires IsTree(g) && root in g.ports
    ensures ThePath(g, root, root) == [root]
  {
    assert SimplePath(g, [root], root, root);
  }

  lemma ParentOf(g: Topology, root: Id, u: Id)
    requires IsTree(g) && root in g.ports && u in g.ports
    ensures var r := RootedAt(g, root);
      if u == root then r.depth[u] == 0
      else
        && r.parent[u] in g.ports && r.depth[u] == r.depth[r.parent[u]] + 1
        && Adjacent(g, u, r.parent[u]) && Adjacent(g, r.parent[u], u)
  {
    RootPath(g, root);
    if u != root {
      PathStep(g, root, u);
    }
  }

  lemma AdjacentIffParent(g: Topology, root: Id, u: Id, w: Id)
    requires IsTree(g) && root in g.ports && u in g.ports && w in g.ports
    ensures var r := RootedAt(g, root);
      Adjacent(g, u, w) <==> (u != root && r.parent[u] == w) || (w != root && r.parent[w] == u)
  {
    ParentOf(g, root, u);
    ParentOf(g, root, w);
    if Adjacent(g, u, w) {
      NeighboursOnPath(g, root, u, w);
      var p, q := ThePath(g, u, root), ThePath(g, w, root);
      RootPath(g, root);
      hide IsTree, IsPath, Distinct;
      if p == [u] + q {
        assert p[1] == q[0] == w && |p| > 1;
      } else {
        assert q[1] == p[0] == u && |q| > 1;
      }
    }
  }

  lemma RootedAtShape(g: Topology, root: Id)
    requires IsTree(g) && root in g.ports
    ensures var r := RootedAt(g, root);
      WellFormed(g) && r.root == root && r.parent.Keys == r.depth.Keys == g.ports.Keys
  {
  }

  lemma TreeHasRooting(g: Topology, root: Id)
    requires IsTree(g) && root in g.ports
    ensures Rooted(RootedAt(g, root), g)
  {
    hide IsTree, WellFormed, Adjacent, RootedAt;
    var r := RootedAt(g, root);
    RootedAtShape(g, root);
    forall u | u in g.ports
      ensures if u == root then r.depth[u] == 0
              else r.parent[u] in g.ports && r.depth[u] == r.depth[r.parent[u]] + 1
    {
      ParentOf(g, root, u);
    }
    forall u, w | u in g.ports && w in g.ports
      ensures Adjacent(g, u, w) <==> (u != root && r.parent[u] == w) || (w != root && r.parent[w] == u)
    {
      AdjacentIffParent(g, root, u, w);
    }
  }

  // `u` lies on the way from the root to `s`.
  ghost predicate Above(r: Rooting, g: Topology, u: Id, s: Id)
    requires Rooted(r, g) && u in g.ports && s in g.ports
    decreases r.depth[s]
  {
    u == s || (s != r.root && Above(r, g, u, r.parent[s]))
  }

  // The child of `u` towards `s`.
  ghost function Down(r: Rooting, g: Topology, u: Id, s: Id): (c: Id)
    requires Rooted(r, g) && u in g.ports && s in g.ports && u != s && Above(r, g, u, s)
    ensures c in g.ports && c != r.root && r.parent[c] == u && Above(r, g, c, s)
    decreases r.depth[s]
  {
    if r.parent[s] == u then s else Down(r, g, u, r.parent[s])
  }

  lemma RootIsAbove(r: Rooting, g: Topology, s: Id)
    requires Rooted(r, g) && s in g.ports
    ensures Above(r, g, r.root, s)
    decreases r.depth[s]
  {
    if s != r.root {
      RootIsAbove(r, g, r.parent[s]);
    }
  }

  lemma AboveIsHigher(r: Rooting, g: Topology, u: Id, s: Id)
    requires Rooted(r, g) && u in g.ports && s in g.ports && Above(r, g, u, s)
    ensures r.depth[u] <= r.depth[s] && (r.depth[u] == r.depth[s] ==> u == s)
    decreases r.depth[s]
  {
    if u != s {
      AboveIsHigher(r, g, u, r.parent[s]);
    }
  }

  // The neighbour of `u` towards `s`, and the number of links between them.
  ghost function Hop(r: Rooting, g: Topology, u: Id, s: Id): (w: Id)
    requires Rooted(r, g) && u in g.ports && s in g.ports && u != s
    ensures w in g.ports
  {
    if Above(r, g, u, s) then Down(r, g, u, s)
    else
      RootIsAbove(r, g, s);
      r.parent[u]
  }

  ghost function Dist(r: Rooting, g: Topology, u: Id, s: Id): nat
    requires Rooted(r, g) && u in g.ports && s in g.ports
    decreases r.depth[u]
  {
    if Above(r, g, u, s) then
      AboveIsHigher(r, g, u, s);
      r.depth[s] - r.depth[u]
    else
      RootIsAbove(r, g, s);
      1 + Dist(r, g, r.parent[u], s)
  }

  lemma DownIsOnlyChild(r: Rooting, g: Topology, u: Id, c: Id, s: Id)
    requires Rooted(r, g) && u in g.ports && c in g.ports && s in g.ports
    requires c != r.root && r.parent[c] == u && Above(r, g, c, s)
    ensures u != s && Above(r, g, u, s) && Down(r, g, u, s) == c
    decreases r.depth[s]
  {
    AboveIsHigher(r, g, c, s);
    if c != s {
      DownIsOnlyChild(r, g, u, c, r.parent[s]);
      assert Above(r, g, u, s);
    } else {
      assert Above(r, g, u, u);
    }
  }

  // Along every link exactly one direction leads towards `s`, and it shortens the distance by one.
  ghost predicate Towards(r: Rooting, g: Topology, u: Id, w: Id, s: Id)
    requires Rooted(r, g) && u in g.ports && w in g.ports && s in g.ports
  {
    u != s && Hop(r, g, u, s) == w && Dist(r, g, u, s) == Dist(r, g, w, s) + 1
  }

  lemma ParentLinkIsOriented(r: Rooting, g: Topology, c: Id, s: Id)
    requires Rooted(r, g) && c in g.ports && s in g.ports && c != r.root
    ensures Towards(r, g, c, r.parent[c], s) || Towards(r, g, r.parent[c], c, s)
  {
    var u := r.parent[c];
    if Above(r, g, c, s) {
      AboveIsHigher(r, g, c, s);
      DownIsOnlyChild(r, g, u, c, s);
    } else {
      assert c != s;
    }
  }

  lemma LinkIsOriented(r: Rooting, g: Topology, u: Id, w: Id, s: Id)
    requires Rooted(r, g) && Adjacent(g, u, w) && s in g.ports
    ensures w in g.ports
    ensures Towards(r, g, u, w, s) != Towards(r, g, w, u, s)
  {
    if u != r.root && r.parent[u] == w {
      ParentLinkIsOriented(r, g, u, s);
    } else {
      ParentLinkIsOriented(r, g, w, s);
    }
  }

  lemma HopIsTowards(r: Rooting, g: Topology, u: Id, s: Id)
    requires Rooted(r, g) && u in g.ports && s in g.ports && u != s
    ensures Adjacent(g, u, Hop(r, g, u, s)) && Towards(r, g, u, Hop(r, g, u, s), s)
  {
    var w := Hop(r, g, u, s);
    if Above(r, g, u, s) {
      ParentLinkIsOriented(r, g, w, s);
      assert Adjacent(g, u, w);
    } else {
      RootIsAbove(r, g, s);
      assert Adjacent(g, u, w);
    }
    LinkIsOriented(r, g, u, w, s);
  }

  lemma ZeroDistance(r: Rooting, g: Topology, u: Id, s: Id)
    requires Rooted(r, g) && u in g.ports && s in g.ports
    ensures Dist(r, g, u, s) == 0 <==> u == s
  {
    if Above(r, g, u, s) {
      AboveIsHigher(r, g, u, s);
    }
  }

  // ---- Paths: what the next hop means without any root ----

  // Every path that does not repeat a node starts with the next hop, and has the distance as
  // its length.
  lemma {:induction false} SimplePathsFollowHops(r: Rooting, g: Topology, path: seq<Id>, u: Id, s: Id)
    requires Rooted(r, g) && SimplePath(g, path, u, s)
    ensures u != s ==> |path| > 1 && path[1] == Hop(r, g, u, s)
    ensures |path| == Dist(r, g, u, s) + 1
    decreases |path|
  {
    ZeroDistance(r, g, u, s);
    if u != s {
      var w, rest := path[1], path[1..];
      assert Adjacent(g, path[0], path[1]);
      LinkIsOriented(r, g, u, w, s);
      assert SimplePath(g, rest, w, s) by {
        assert forall i :: 0 <= i < |rest| ==> rest[i] == path[i + 1];
      }
      SimplePathsFollowHops(r, g, rest, w, s);
      assert |rest| > 1 ==> rest[1] == path[2] && path[2] != path[0];
    } else {
      assert path[0] == path[|path| - 1];
    }
  }

  // And there is one: the route.
  ghost function Route(r: Rooting, g: Topology, u: Id, s: Id): (path: seq<Id>)
    requires Rooted(r, g) && u in g.ports && s in g.ports
    decreases Dist(r, g, u, s)
  {
    if u == s then [u]
    else
      HopIsTowards(r, g, u, s);
      [u] + Route(r, g, Hop(r, g, u, s), s)
  }

  // Along the route the distance counts down to zero.
  lemma {:induction false} RouteIsPath(r: Rooting, g: Topology, u: Id, s: Id)
    requires Rooted(r, g) && u in g.ports && s in g.ports
    ensures SimplePath(g, Route(r, g, u, s), u, s)
    ensures forall i :: 0 <= i < |Route(r, g, u, s)| ==>
      Route(r, g, u, s)[i] in g.ports && Dist(r, g, Route(r, g, u, s)[i], s) == Dist(r, g, u, s) - i
    decreases Dist(r, g, u, s)
  {
    hide Dist, Hop, Roots, Above, WellFormed;
    if u != s {
      HopIsTowards(r, g, u, s);
      var w := Hop(r, g, u, s);
      RouteIsPath(r, g, w, s);
      var rest := Route(r, g, w, s);
      forall i | 0 <= i < |rest|
        ensures rest[i] != u
      {
        assert Dist(r, g, rest[i], s) < Dist(r, g, u, s);
      }
      ExtendPath(g, u, rest, s);
    }
  }

  // The neighbour behind which `s` lies: every simple path from `u` to `s` passes through it.
  ghost predicate LiesBehind(g: Topology, u: Id, w: Id, s: Id) {
    && Adjacent(g, u, w)
    && Reaches(g, u, s)
    && forall path :: SimplePath(g, path, u, s) ==> |path| > 1 && path[1] == w
  }

  lemma HopLiesBehind(r: Rooting, g: Topology, u: Id, w: Id, s: Id)
    requires Rooted(r, g) && u in g.ports && s in g.ports && u != s
    ensures LiesBehind(g, u, w, s) <==> w == Hop(r, g, u, s)
  {
    HopIsTowards(r, g, u, s);
    RouteIsPath(r, g, u, s);
    assert SimplePath(g, Route(r, g, u, s), u, s);
    forall path | SimplePath(g, path, u, s)
      ensures |path| > 1 && path[1] == Hop(r, g, u, s)
    {
      SimplePathsFollowHops(r, g, path, u, s);
    }
  }

  lemma {:induction false} SimplePathIsRoute(r: Rooting, g: Topology, path: seq<Id>, u: Id, s: Id)
    requires Rooted(r, g) && SimplePath(g, path, u, s)
    ensures path == Route(r, g, u, s)
    decreases |path|
  {
    hide Dist, Hop, Roots, Above, WellFormed;
    SimplePathsFollowHops(r, g, path, u, s);
    ZeroDistance(r, g, u, s);
    if u != s {
      var w, rest := path[1], path[1..];
      assert SimplePath(g, rest, w, s) by {
        assert forall i :: 0 <= i < |rest| ==> rest[i] == path[i + 1];
      }
      SimplePathIsRoute(r, g, rest, w, s);
      assert path == [u] + rest;
    } else {
      assert path == [u];
    }
  }

  // Trees are exactly the networks that can be hung up at a node.
  lemma TreeIffRooted(g: Topology)
    ensures IsTree(g) <==> exists r :: Rooted(r, g)
  {
    if IsTree(g) {
      var root :| root in g.ports;
      TreeHasRooting(g, root);
    }
    forall r | Rooted(r, g)
      ensures IsTree(g)
    {
      forall u, s | u in g.ports && s in g.ports
        ensures Reaches(g, u, s)
      {
        RouteIsPath(r, g, u, s);
      }
      forall p, q, u, s | SimplePath(g, p, u, s) && SimplePath(g, q, u, s)
        ensures p == q
      {
        SimplePathIsRoute(r, g, p, u, s);
        SimplePathIsRoute(r, g, q, u, s);
      }
    }
  }
}
