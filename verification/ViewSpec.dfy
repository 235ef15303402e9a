/** A view's layout: components that name their children by id. A layout is accepted when its components can
    be rendered from the root, which the depth-first search for a cycle decides. */
module ViewSpec {
  import opened Events

  datatype Children = Listed(ids: seq<string>) | Bound(template: string)

  datatype Component =
    | Card(id: string, children: Children)
    | Row(id: string, children: Children)
    | Kanban(id: string, cards: string)
    | Table(id: string, cells: seq<string>)
    | Leaf(id: string)

  const VIEW_ROOT := "root"

  /** The ids a component names as its children, its template or its cells. */
  function NamedComponents(c: Component): seq<string> {
    match c
    case Card(_, Bound(template)) => [template]
    case Row(_, Bound(template)) => [template]
    case Kanban(_, template) => [template]
    case Card(_, Listed(ids)) => ids
    case Row(_, Listed(ids)) => ids
    case Table(_, cells) => cells
    case Leaf(_) => []
  }

  type Graph = map<string, seq<string>>

  /** Every named component exists. */
  predicate Closed(named: Graph) {
    forall id, child :: id in named && child in named[id] ==> child in named
  }

  /** Each id on the path names the next. */
  predicate IsPath(named: Graph, path: seq<string>) {
    forall i :: 0 <= i < |path| - 1 ==> path[i] in named && path[i + 1] in named[path[i]]
  }

  /** A path of ids that comes back to where it started. */
  predicate IsCycle(named: Graph, path: seq<string>) {
    |path| >= 2 && path[0] == path[|path| - 1] && IsPath(named, path)
  }

  ghost predicate Acyclic(named: Graph) {
    forall path :: !IsCycle(named, path)
  }

  // ---------------------------------------------------------------- ranks

  /** Every component ranks above the components it names. */
  ghost predicate Ranked(named: Graph, rank: map<string, nat>) {
    && named.Keys <= rank.Keys
    && forall id, child :: id in named && child in named[id] ==> child in named && rank[child] < rank[id]
  }

  lemma {:induction false} RanksFall(named: Graph, rank: map<string, nat>, path: seq<string>, i: nat)
    requires Ranked(named, rank) && IsPath(named, path) && 0 < i < |path|
    ensures path[0] in named && path[i] in named && rank[path[i]] < rank[path[0]]
  {
    assert path[i - 1] in named && path[i - 1 + 1] in named[path[i - 1]];
    if i > 1 {
      RanksFall(named, rank, path, i - 1);
    }
  }

  /** Where components are ranked none contains itself. */
  lemma RankedIsAcyclic(named: Graph, rank: map<string, nat>)
    requires Ranked(named, rank)
    ensures Acyclic(named)
  {
    forall path ensures !IsCycle(named, path) {
      if IsCycle(named, path) {
        RanksFall(named, rank, path, |path| - 1);
        assert false;
      }
    }
  }

  // ---------------------------------------------------------------- the search

  /** The components finished, each after every component it names. */
  ghost predicate InOrder(named: Graph, ranked: seq<string>) {
    && (forall i :: 0 <= i < |ranked| ==> ranked[i] in named)
    && (forall i, child :: 0 <= i < |ranked| && child in named[ranked[i]] ==> child in ranked[..i])
    && (forall i, j :: 0 <= i < j < |ranked| ==> ranked[i] != ranked[j])
  }

  lemma OrderGrows(named: Graph, ranked: seq<string>, id: string)
    requires InOrder(named, ranked) && id in named && id !in ranked && forall child :: child in named[id] ==> child in ranked
    ensures InOrder(named, ranked + [id])
  {
    var longer := ranked + [id];
    forall i, child | 0 <= i < |longer| && child in named[longer[i]] ensures child in longer[..i] {
      if i == |ranked| {
        assert longer[..i] == ranked;
      } else {
        assert longer[..i] == ranked[..i] && child in named[ranked[i]];
      }
    }
  }

  /** The ids of a path are distinct, each names the next, and the last names the component visited. */
  ghost predicate OnPath(named: Graph, path: seq<string>, component: string) {
    && component in named && IsPath(named, path + [component])
    && (forall i :: 0 <= i < |path| ==> path[i] in named)
    && (forall i, j :: 0 <= i < j < |path| ==> path[i] != path[j])
  }

  function IdsOf(path: seq<string>): set<string> {
    set id | id in path
  }

  lemma OnPathGrows(named: Graph, path: seq<string>, component: string, child: string)
    requires OnPath(named, path, component) && Closed(named) && component !in path && child in named[component]
    ensures OnPath(named, path + [component], child)
    ensures |named.Keys - IdsOf(path + [component])| < |named.Keys - IdsOf(path)|
  {
    var longer := path + [component] + [child];
    forall i | 0 <= i < |longer| - 1 ensures longer[i] in named && longer[i + 1] in named[longer[i]] {
      if i < |path| {
        assert longer[i] == (path + [component])[i] && longer[i + 1] == (path + [component])[i + 1];
      }
    }
    assert named.Keys - IdsOf(path + [component]) == named.Keys - IdsOf(path) - {component};
  }

  function IndexOf(path: seq<string>, id: string): (i: nat)
    requires id in path
    ensures i < |path| && path[i] == id
  {
    if path[0] == id then 0 else 1 + IndexOf(path[1..], id)
  }

  lemma BackIsCycle(named: Graph, path: seq<string>, component: string)
    requires OnPath(named, path, component) && component in path
    ensures IsCycle(named, path[IndexOf(path, component)..] + [component])
  {
    var k := IndexOf(path, component);
    var cycle, whole := path[k..] + [component], path + [component];
    forall i | 0 <= i < |cycle| - 1 ensures cycle[i] in named && cycle[i + 1] in named[cycle[i]] {
      assert cycle[i] == whole[k + i] && cycle[i + 1] == whole[k + i + 1];
    }
  }

  class Search {
    const named: Graph
    var finished: set<string>
    ghost var ranked: seq<string>

    constructor (named: Graph)
      ensures this.named == named && finished == {} && Valid()
    {
      this.named, finished, ranked := named, {}, [];
    }

    ghost predicate Valid()
      reads this
    {
      InOrder(named, ranked) && finished == IdsOf(ranked)
    }

    /** Finish the component and everything it leads to, or return a cycle met on the way. */
    method Visit(component: string, path: seq<string>) returns (found: Option<seq<string>>)
      requires Valid() && Closed(named) && OnPath(named, path, component)
      requires forall id :: id in path ==> id !in finished
      modifies this
      ensures Valid() && old(finished) <= finished
      ensures forall id :: id in path ==> id !in finished
      ensures found.None? ==> component in finished
      ensures found.Some? ==> IsCycle(named, found.value)
      decreases |named.Keys - IdsOf(path)|
    {
      if component in path {
        BackIsCycle(named, path, component);
        return Some(path[IndexOf(path, component)..] + [component]);
      }
      if component in finished {
        return None;
      }
      var children := named[component];
      var i := 0;
      while i < |children|
        invariant 0 <= i <= |children|
        invariant Valid() && old(finished) <= finished
        invariant component !in finished && forall id :: id in path ==> id !in finished
        invariant forall k :: 0 <= k < i ==> children[k] in finished
      {
        OnPathGrows(named, path, component, children[i]);
        assert component in path + [component];
        found := Visit(children[i], path + [component]);
        assert component !in finished;
        forall id | id in path ensures id !in finished {
          assert id in path + [component];
        }
        if found.Some? {
          return;
        }
        i := i + 1;
      }
      OrderGrows(named, ranked, component);
      finished := finished + {component};
      ranked := ranked + [component];
      return None;
    }
  }

  function Rank(ranked: seq<string>): map<string, nat> {
    map id | id in ranked :: IndexOf(ranked, id)
  }

  lemma {:induction false} FirstIndex(ranked: seq<string>, id: string, i: nat)
    requires i < |ranked| && id in ranked[..i]
    ensures id in ranked && IndexOf(ranked, id) < i
  {
    if ranked[0] != id {
      assert ranked[1..][..i - 1] == ranked[..i][1..];
      assert id in ranked[1..][..i - 1];
      FirstIndex(ranked[1..], id, i - 1);
    }
  }

  lemma OrderRanks(named: Graph, ranked: seq<string>)
    requires InOrder(named, ranked) && named.Keys <= IdsOf(ranked)
    ensures Ranked(named, Rank(ranked))
  {
    forall id, child | id in named && child in named[id] ensures child in named && Rank(ranked)[child] < Rank(ranked)[id] {
      var i := IndexOf(ranked, id);
      assert child in ranked[..i];
      FirstIndex(ranked, child, i);
      assert child in ranked;
      var k :| 0 <= k < |ranked| && ranked[k] == child;
    }
  }

  /** A path that comes back to where it started, found exactly when there is one. Where there is none, the
      search has ranked every component above those it names. */
  method FindCycle(named: Graph, order: seq<string>) returns (cycle: Option<seq<string>>)
    requires Closed(named) && IdsOf(order) == named.Keys
    ensures cycle.None? <==> Acyclic(named)
    ensures cycle.Some? ==> IsCycle(named, cycle.value)
    ensures cycle.None? ==> exists rank :: Ranked(named, rank)
  {
    var search := new Search(named);
    var i := 0;
    while i < |order|
      invariant 0 <= i <= |order|
      invariant search.Valid() && search.named == named
      invariant forall k :: 0 <= k < i ==> order[k] in search.finished
    {
      assert order[i] in IdsOf(order);
      cycle := search.Visit(order[i], []);
      if cycle.Some? {
        return;
      }
      i := i + 1;
    }
    cycle := None;
    forall id | id in named ensures id in search.finished {
      assert id in IdsOf(order);
    }
    OrderRanks(named, search.ranked);
    RankedIsAcyclic(named, Rank(search.ranked));
  }

  // ---------------------------------------------------------------- what an accepted layout gives

  datatype Tree = Tree(id: string, children: seq<Tree>)

  /** Render a component with everything it names. The rank shows that this ends. */
  function Render(named: Graph, rank: map<string, nat>, id: string): (tree: Tree)
    requires Ranked(named, rank) && id in named
    ensures tree.id == id && |tree.children| == |named[id]|
    ensures forall i :: 0 <= i < |tree.children| ==> tree.children[i].id == named[id][i]
    decreases rank[id]
  {
    Tree(id, seq(|named[id]|, i requires 0 <= i < |named[id]| => Child(named, rank, id, i)))
  }

  function Child(named: Graph, rank: map<string, nat>, id: string, i: nat): (child: Tree)
    requires Ranked(named, rank) && id in named && i < |named[id]|
    ensures child.id == named[id][i]
    decreases rank[id], 0
  {
    assert named[id][i] in named[id];
    Render(named, rank, named[id][i])
  }

  /** The tree does not depend on the rank. */
  lemma {:induction false} RenderIsOne(named: Graph, rank: map<string, nat>, other: map<string, nat>, id: string)
    requires Ranked(named, rank) && Ranked(named, other) && id in named
    ensures Render(named, rank, id) == Render(named, other, id)
    decreases rank[id]
  {
    forall i | 0 <= i < |named[id]| ensures Child(named, rank, id, i) == Child(named, other, id, i) {
      assert named[id][i] in named[id];
      RenderIsOne(named, rank, other, named[id][i]);
    }
  }

  // ---------------------------------------------------------------- the check

  datatype Verdict = Accepted | RepeatedId(id: string) | NoRoot | Missing(parent: string, ids: seq<string>) | Cyclic(path: seq<string>)

  function ComponentIds(components: seq<Component>): seq<string> {
    seq(|components|, i requires 0 <= i < |components| => components[i].id)
  }

  /** What each component names, a later component taking the place of an earlier one with its id. */
  function NamedBy(components: seq<Component>): Graph {
    if components == [] then map[]
    else
      var last := components[|components| - 1];
      NamedBy(components[..|components| - 1])[last.id := NamedComponents(last)]
  }

  lemma {:induction false} NamedIds(components: seq<Component>)
    ensures NamedBy(components).Keys == IdsOf(ComponentIds(components))
  {
    var ids := ComponentIds(components);
    if components != [] {
      var n := |components| - 1;
      NamedIds(components[..n]);
      assert ids == ComponentIds(components[..n]) + [components[n].id];
    }
  }

  predicate Distinct(ids: seq<string>) {
    forall i, j :: 0 <= i < j < |ids| ==> ids[i] != ids[j]
  }

  function IsMissing(named: Graph): string -> bool {
    (id: string) => id !in named
  }

  /** An id that comes twice, if there is one. */
  method Repeated(ids: seq<string>) returns (id: Option<string>)
    ensures id.None? <==> Distinct(ids)
    ensures id.Some? ==> exists i, j :: 0 <= i < j < |ids| && ids[i] == ids[j] == id.value
  {
    var i := 0;
    while i < |ids|
      invariant 0 <= i <= |ids|
      invariant Distinct(ids[..i])
    {
      if ids[i] in ids[..i] {
        var k :| 0 <= k < i && ids[..i][k] == ids[i];
        assert ids[k] == ids[i];
        return Some(ids[i]);
      }
      i := i + 1;
    }
    assert ids[..|ids|] == ids;
    return None;
  }

  /** The first component that names one that does not exist, with those it names so. */
  method FirstMissing(ids: seq<string>, named: Graph) returns (missing: Option<(string, seq<string>)>)
    requires IdsOf(ids) == named.Keys
    ensures missing.None? <==> Closed(named)
    ensures missing.Some? ==> missing.value.0 in named && missing.value.1 != []
                              && forall id :: id in missing.value.1 ==> id !in named
  {
    var i := 0;
    while i < |ids|
      invariant 0 <= i <= |ids|
      invariant forall k, child :: 0 <= k < i && child in named[ids[k]] ==> child in named
    {
      assert ids[i] in IdsOf(ids);
      var absent := Filter(named[ids[i]], IsMissing(named));
      FilterMembers(named[ids[i]], IsMissing(named));
      if absent != [] {
        assert absent[0] in absent;
        return Some((ids[i], absent));
      }
      i := i + 1;
    }
    forall id, child | id in named && child in named[id] ensures child in named {
      assert id in IdsOf(ids);
      var k :| 0 <= k < |ids| && ids[k] == id;
    }
    return None;
  }

  /** A layout is accepted exactly when its ids are distinct, one is the root's, every component named exists
      and none contains itself. */
  method Check(components: seq<Component>) returns (verdict: Verdict)
    ensures var ids, named := ComponentIds(components), NamedBy(components);
            && (verdict.Accepted? <==> Distinct(ids) && VIEW_ROOT in ids && Closed(named) && Acyclic(named))
            && (verdict.Cyclic? ==> IsCycle(named, verdict.path))
            && (verdict.Missing? ==> verdict.parent in named && verdict.ids != [] && forall id :: id in verdict.ids ==> id !in named)
            && (verdict.Accepted? ==> exists rank :: Ranked(named, rank) && VIEW_ROOT in named)
  {
    var ids, named := ComponentIds(components), NamedBy(components);
    NamedIds(components);
    assert VIEW_ROOT in ids <==> VIEW_ROOT in IdsOf(ids);
    hide ComponentIds, NamedBy, Distinct, Closed, Acyclic, IsCycle, Ranked;
    var repeated := Repeated(ids);
    if repeated.Some? {
      return RepeatedId(repeated.value);
    }
    if VIEW_ROOT !in ids {
      return NoRoot;
    }
    var missing := FirstMissing(ids, named);
    if missing.Some? {
      return Missing(missing.value.0, missing.value.1);
    }
    var cycle := FindCycle(named, ids);
    if cycle.Some? {
      return Cyclic(cycle.value);
    }
    return Accepted;
  }

  // ---------------------------------------------------------------- what a component names

  /** A card or a row names its template or its children, a kanban its template, a table its columns' cells. */
  predicate Names(c: Component, child: string) {
    || (c.Card? && c.children.Bound? && child == c.children.template)
    || (c.Card? && c.children.Listed? && child in c.children.ids)
    || (c.Row? && c.children.Bound? && child == c.children.template)
    || (c.Row? && c.children.Listed? && child in c.children.ids)
    || (c.Kanban? && child == c.cards)
    || (c.Table? && child in c.cells)
  }

  /** In a layout whose ids are distinct, the edges of the graph are exactly what its components name, so what an
      accepted one renders under a component is what that component names. */
  lemma {:induction false} EdgesAreNames(components: seq<Component>, i: nat, child: string)
    requires Distinct(ComponentIds(components)) && i < |components|
    ensures components[i].id in NamedBy(components)
    ensures child in NamedBy(components)[components[i].id] <==> Names(components[i], child)
  {
    var n := |components| - 1;
    if i < n {
      assert ComponentIds(components)[i] != ComponentIds(components)[n];
      assert forall j :: 0 <= j < n ==> ComponentIds(components[..n])[j] == ComponentIds(components)[j];
      EdgesAreNames(components[..n], i, child);
    }
  }
}
