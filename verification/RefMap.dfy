/**
 Two walks over one accessibility graph that must agree: the printed snapshot with its
 `[ref=eN]` tags, and the map from refs to backend DOM nodes.

 The graph may contain cycles and shared children; both walks cut them with a visited set.
 */
module RefMap {
  import opened Common

  datatype Node = Node(id: string, role: string, backend: Option<int>, children: seq<string>)

  const InteractiveRoles: set<string> := {
    "link", "button", "textbox", "searchbox", "search", "checkbox", "radio", "combobox", "listbox",
    "option", "menuitem", "menuitemcheckbox", "menuitemradio", "tab", "slider", "spinbutton",
    "switch", "togglebutton", "treeitem", "gridcell", "menu", "menubar", "tablist", "tree", "grid"
  }

  predicate IsInteractive(role: string) { role in InteractiveRoles }

  predicate HasRef(n: Node) { IsInteractive(n.role) && n.backend.Some? }

  // -------------------------------------------------------------------- ref names

  function RefName(k: nat): string { "e" + Decimal(k) }

  lemma RefNameIsInjective(m: nat, n: nat)
    requires RefName(m) == RefName(n)
    ensures m == n
  {
    assert RefName(m)[1..] == Decimal(m) && RefName(n)[1..] == Decimal(n);
    DecimalIsInjective(m, n);
  }

  // -------------------------------------------------------------------- the graph

  predicate Consistent(index: map<string, Node>) {
    forall id :: id in index ==> index[id].id == id
  }

  // Later nodes win when ids repeat.
  function Index(nodes: seq<Node>): (index: map<string, Node>)
    ensures Consistent(index) && forall id :: id in index ==> index[id] in nodes
    ensures forall n :: n in nodes ==> n.id in index
  {
    if nodes == [] then map[]
    else
      var last := nodes[|nodes| - 1];
      assert nodes == nodes[..|nodes| - 1] + [last];
      Index(nodes[..|nodes| - 1])[last.id := last]
  }

  function FirstWebArea(nodes: seq<Node>): (root: Option<Node>)
    ensures root.Some? ==> root.value in nodes
  {
    if nodes == [] then None
    else if nodes[0].role == "rootWebArea" then Some(nodes[0])
    else FirstWebArea(nodes[1..])
  }

  function Root(nodes: seq<Node>): (root: Node)
    requires nodes != []
    ensures root.id in Index(nodes)
  {
    var webArea := FirstWebArea(nodes);
    if webArea.Some? then webArea.value
    else if "0" in Index(nodes) then Index(nodes)["0"]
    else nodes[0]
  }

  // -------------------------------------------------------------------- depth-first order

  datatype Visit = Visit(node: Node, depth: nat)

  datatype Walk = Walk(order: seq<Visit>, visited: set<string>)

  ghost function Unvisited(index: map<string, Node>, visited: set<string>): nat {
    |index.Keys - visited|
  }

  lemma VisitingShrinks(index: map<string, Node>, id: string, visited: set<string>)
    requires id in index && id !in visited
    ensures Unvisited(index, visited + {id}) < Unvisited(index, visited)
  {
    assert index.Keys - visited == (index.Keys - (visited + {id})) + {id};
  }

  lemma MoreVisited(index: map<string, Node>, a: set<string>, b: set<string>)
    requires a <= b
    ensures Unvisited(index, b) <= Unvisited(index, a)
  {
    assert index.Keys - a == (index.Keys - b) + ((index.Keys - a) - (index.Keys - b));
  }

  ghost function Preorder(index: map<string, Node>, node: Node, depth: nat, visited: set<string>): (w: Walk)
    requires node.id in index
    ensures visited <= w.visited
    decreases Unvisited(index, visited), 0
  {
    if node.id in visited then Walk([], visited)
    else
      VisitingShrinks(index, node.id, visited);
      var below := PreorderAll(index, node.children, depth + 1, visited + {node.id});
      Walk([Visit(node, depth)] + below.order, below.visited)
  }

  ghost function PreorderAll(
      index: map<string, Node>, ids: seq<string>, depth: nat, visited: set<string>): (w: Walk)
    ensures visited <= w.visited
    decreases Unvisited(index, visited), |ids|
  {
    if ids == [] then Walk([], visited)
    else if ids[0] !in index || index[ids[0]].id !in index then
      PreorderAll(index, ids[1..], depth, visited)
    else
      var first := Preorder(index, index[ids[0]], depth, visited);
      MoreVisited(index, visited, first.visited);
      var rest := PreorderAll(index, ids[1..], depth, first.visited);
      Walk(first.order + rest.order, rest.visited)
  }

  // -------------------------------------------------------------------- numbering an order

  datatype Line = Line(depth: nat, node: Node, ref: Option<string>)

  function RefCount(order: seq<Visit>): nat {
    if order == [] then 0 else (if HasRef(order[0].node) then 1 else 0) + RefCount(order[1..])
  }

  function Lines(order: seq<Visit>, counter: nat): seq<Line> {
    if order == [] then []
    else if HasRef(order[0].node) then
      [Line(order[0].depth, order[0].node, Some(RefName(counter + 1)))] + Lines(order[1..], counter + 1)
    else [Line(order[0].depth, order[0].node, None)] + Lines(order[1..], counter)
  }

  function Refs(order: seq<Visit>, counter: nat): map<string, int> {
    if order == [] then map[]
    else if HasRef(order[0].node) then
      map[RefName(counter + 1) := order[0].node.backend.value] + Refs(order[1..], counter + 1)
    else Refs(order[1..], counter)
  }

  lemma {:induction false} RefCountOfSum(a: seq<Visit>, b: seq<Visit>)
    ensures RefCount(a + b) == RefCount(a) + RefCount(b)
  {
    if a == [] {
      assert a + b == b;
    } else {
      assert (a + b)[0] == a[0] && (a + b)[1..] == a[1..] + b;
      RefCountOfSum(a[1..], b);
    }
  }

  function NextCounter(v: Visit, counter: nat): nat { if HasRef(v.node) then counter + 1 else counter }

  lemma {:induction false} LinesOfSum(a: seq<Visit>, b: seq<Visit>, counter: nat)
    ensures Lines(a + b, counter) == Lines(a, counter) + Lines(b, counter + RefCount(a))
    decreases |a|
  {
    hide IsInteractive;
    if a == [] {
      assert a + b == b;
    } else {
      assert (a + b)[0] == a[0] && (a + b)[1..] == a[1..] + b;
      LinesOfSum(a[1..], b, NextCounter(a[0], counter));
    }
  }

  lemma {:induction false} RefsOfSum(a: seq<Visit>, b: seq<Visit>, counter: nat)
    ensures Refs(a + b, counter) == Refs(a, counter) + Refs(b, counter + RefCount(a))
    decreases |a|
  {
    hide IsInteractive;
    if a == [] {
      assert a + b == b;
    } else {
      assert (a + b)[0] == a[0] && (a + b)[1..] == a[1..] + b;
      RefsOfSum(a[1..], b, NextCounter(a[0], counter));
    }
  }

  lemma OneVisit(v: Visit, counter: nat)
    ensures Refs([v], counter) == if HasRef(v.node) then map[RefName(counter + 1) := v.node.backend.value] else map[]
    ensures RefCount([v]) == if HasRef(v.node) then 1 else 0
    ensures Refs([], counter) == map[] && RefCount([]) == 0
  {
    assert [v][1..] == [];
  }

  lemma SeenBefore(index: map<string, Node>, node: Node, depth: nat, visited: set<string>)
    requires node.id in index && node.id in visited
    ensures Preorder(index, node, depth, visited) == Walk([], visited)
  {
  }

  // -------------------------------------------------------------------- the child loop

  // `done` is what the walk of `node` has visited before its child number `i`.
  ghost predicate Progress(index: map<string, Node>, node: Node, depth: nat, start: set<string>,
                           done: seq<Visit>, i: nat, visited: set<string>)
  {
    && start <= visited && i <= |node.children|
    && var all := PreorderAll(index, node.children, depth + 1, start);
       var rest := PreorderAll(index, node.children[i..], depth + 1, visited);
       [Visit(node, depth)] + all.order == done + rest.order && all.visited == rest.visited
  }

  lemma ProgressStart(index: map<string, Node>, node: Node, depth: nat, start: set<string>)
    ensures Progress(index, node, depth, start, [Visit(node, depth)], 0, start)
  {
    assert node.children[0..] == node.children;
  }

  lemma ProgressStep(index: map<string, Node>, node: Node, depth: nat, start: set<string>,
                     done: seq<Visit>, i: nat, visited: set<string>)
    requires Progress(index, node, depth, start, done, i, visited) && i < |node.children|
    requires Consistent(index)
    ensures node.children[i] !in index ==> Progress(index, node, depth, start, done, i + 1, visited)
    ensures node.children[i] in index ==>
              var w := Preorder(index, index[node.children[i]], depth + 1, visited);
              Progress(index, node, depth, start, done + w.order, i + 1, w.visited)
  {
    assert node.children[i..][1..] == node.children[i + 1..];
  }

  lemma ProgressEnd(index: map<string, Node>, node: Node, depth: nat, visited: set<string>,
                    done: seq<Visit>, after: set<string>)
    requires node.id in index && node.id !in visited
    requires Progress(index, node, depth, visited + {node.id}, done, |node.children|, after)
    ensures Preorder(index, node, depth, visited) == Walk(done, after)
  {
    VisitingShrinks(index, node.id, visited);
    assert done + [] == done;
  }

  // -------------------------------------------------------------------- the two walks

  class SnapshotFormatter {
    const index: map<string, Node>
    var counter: nat
    var visited: set<string>

    constructor (index: map<string, Node>)
      ensures this.index == index && counter == 0 && visited == {}
    {
      this.index, counter, visited := index, 0, {};
    }

    method FormatNode(node: Node, depth: nat) returns (lines: seq<Line>)
      requires node.id in index && Consistent(index)
      modifies this
      ensures var w := Preorder(index, node, depth, old(visited));
              && visited == w.visited
              && lines == Lines(w.order, old(counter))
              && counter == old(counter) + RefCount(w.order)
      decreases Unvisited(index, visited)
    {
      hide IsInteractive, Progress, PreorderAll, Unvisited;
      if node.id in visited {
        return [];
      }
      VisitingShrinks(index, node.id, visited);
      ghost var start := visited + {node.id};
      visited := visited + {node.id};
      var ref := None;
      if HasRef(node) {
        counter := counter + 1;
        ref := Some(RefName(counter));
      }
      lines := [Line(depth, node, ref)];
      ghost var done: seq<Visit> := [Visit(node, depth)];
      ProgressStart(index, node, depth, start);
      for i := 0 to |node.children|
        invariant Progress(index, node, depth, start, done, i, visited) && start <= visited
        invariant lines == Lines(done, old(counter)) && counter == old(counter) + RefCount(done)
      {
        ProgressStep(index, node, depth, start, done, i, visited);
        var childId := node.children[i];
        if childId in index {
          MoreVisited(index, start, visited);
          ghost var w := Preorder(index, index[childId], depth + 1, visited);
          LinesOfSum(done, w.order, old(counter));
          RefCountOfSum(done, w.order);
          var below := FormatNode(index[childId], depth + 1);
          lines := lines + below;
          done := done + w.order;
        }
      }
      ProgressEnd(index, node, depth, old(visited), done, visited);
    }
  }

  class RefWalker {
    const index: map<string, Node>
    var counter: nat
    var visited: set<string>
    var refs: map<string, int>

    constructor (index: map<string, Node>)
      ensures this.index == index && counter == 0 && visited == {} && refs == map[]
    {
      this.index, counter, visited, refs := index, 0, {}, map[];
    }

    method WalkRefMap(node: Node, ghost depth: nat)
      requires node.id in index && Consistent(index)
      modifies this
      ensures var w := Preorder(index, node, depth, old(visited));
              && visited == w.visited
              && refs == old(refs) + Refs(w.order, old(counter))
              && counter == old(counter) + RefCount(w.order)
      decreases Unvisited(index, visited)
    {
      hide IsInteractive, Progress, Preorder, PreorderAll, Unvisited, Refs, RefCount, RefName;
      OneVisit(Visit(node, depth), counter);
      if node.id in visited {
        SeenBefore(index, node, depth, visited);
        return;
      }
      VisitingShrinks(index, node.id, visited);
      ghost var start := visited + {node.id};
      visited := visited + {node.id};
      if HasRef(node) {
        counter := counter + 1;
        refs := refs[RefName(counter) := node.backend.value];
      }
      ghost var done: seq<Visit> := [Visit(node, depth)];
      ProgressStart(index, node, depth, start);
      for i := 0 to |node.children|
        invariant Progress(index, node, depth, start, done, i, visited) && start <= visited
        invariant refs == old(refs) + Refs(done, old(counter))
        invariant counter == old(counter) + RefCount(done)
      {
        ProgressStep(index, node, depth, start, done, i, visited);
        var childId := node.children[i];
        if childId in index {
          MoreVisited(index, start, visited);
          ghost var w := Preorder(index, index[childId], depth + 1, visited);
          RefsOfSum(done, w.order, old(counter));
          RefCountOfSum(done, w.order);
          WalkRefMap(index[childId], depth + 1);
          MergeAssociates(old(refs), Refs(done, old(counter)), Refs(w.order, old(counter) + RefCount(done)));
          done := done + w.order;
        }
      }
      ProgressEnd(index, node, depth, old(visited), done, visited);
    }
  }

  lemma MergeAssociates(a: map<string, int>, b: map<string, int>, c: map<string, int>)
    ensures (a + b) + c == a + (b + c)
  {
  }

  method BuildRefMap(nodes: seq<Node>) returns (refs: map<string, int>)
    ensures nodes == [] ==> refs == map[]
    ensures nodes != [] ==> refs == Refs(Preorder(Index(nodes), Root(nodes), 0, {}).order, 0)
  {
    if nodes == [] {
      return map[];
    }
    var walker := new RefWalker(Index(nodes));
    walker.WalkRefMap(Root(nodes), 0);
    refs := walker.refs;
  }

  // -------------------------------------------------------------------- agreement

  // Ref number k is carried by exactly one line, and the map sends it to that line's node.
  ghost predicate Agree(lines: seq<Line>, refs: map<string, int>, from: nat, count: nat) {
    && (forall ref :: ref in refs <==> exists k :: from < k <= from + count && ref == RefName(k))
    && (forall i :: 0 <= i < |lines| && lines[i].ref.Some? ==>
          && HasRef(lines[i].node)
          && lines[i].ref.value in refs
          && refs[lines[i].ref.value] == lines[i].node.backend.value)
    && (forall i :: 0 <= i < |lines| && HasRef(lines[i].node) ==> lines[i].ref.Some?)
    && (forall i, j :: 0 <= i < j < |lines| && lines[i].ref.Some? ==> lines[i].ref != lines[j].ref)
    && (forall k :: from < k <= from + count ==>
          exists i :: 0 <= i < |lines| && lines[i].ref == Some(RefName(k)))
  }

  lemma AgreeSkipsPlainLine(lines: seq<Line>, refs: map<string, int>, from: nat, count: nat, l: Line)
    requires Agree(lines, refs, from, count) && l.ref == None && !HasRef(l.node)
    ensures Agree([l] + lines, refs, from, count)
  {
    hide IsInteractive;
    var all := [l] + lines;
    forall k | from < k <= from + count
      ensures exists i :: 0 <= i < |all| && all[i].ref == Some(RefName(k))
    {
      var i :| 0 <= i < |lines| && lines[i].ref == Some(RefName(k));
      assert all[i + 1] == lines[i];
    }
  }

  lemma AgreeTakesRefLine(lines: seq<Line>, refs: map<string, int>, from: nat, count: nat, l: Line)
    requires Agree(lines, refs, from + 1, count)
    requires l.ref == Some(RefName(from + 1)) && HasRef(l.node)
    ensures Agree([l] + lines, map[RefName(from + 1) := l.node.backend.value] + refs, from, count + 1)
  {
    hide IsInteractive, RefName;
    var all := [l] + lines;
    var first := RefName(from + 1);
    var merged := map[first := l.node.backend.value] + refs;
    if first in refs {
      var k :| from + 1 < k <= from + 1 + count && first == RefName(k);
      RefNameIsInjective(k, from + 1);
    }
    forall ref | ref in merged
      ensures exists k :: from < k <= from + count + 1 && ref == RefName(k)
    {
      if ref in refs {
        var k :| from + 1 < k <= from + 1 + count && ref == RefName(k);
      } else {
        assert ref == RefName(from + 1);
      }
    }
    forall k | from < k <= from + count + 1
      ensures exists i :: 0 <= i < |all| && all[i].ref == Some(RefName(k))
      ensures RefName(k) in merged
    {
      if k == from + 1 {
        assert all[0].ref == Some(RefName(k));
      } else {
        var i :| 0 <= i < |lines| && lines[i].ref == Some(RefName(k));
        assert all[i + 1] == lines[i];
      }
    }
  }

  lemma {:induction false} NumberingAgrees(order: seq<Visit>, counter: nat)
    ensures Agree(Lines(order, counter), Refs(order, counter), counter, RefCount(order))
    decreases |order|
  {
    hide IsInteractive;
    if order != [] {
      var v := order[0];
      if HasRef(v.node) {
        NumberingAgrees(order[1..], counter + 1);
        AgreeTakesRefLine(Lines(order[1..], counter + 1), Refs(order[1..], counter + 1), counter,
                          RefCount(order[1..]), Line(v.depth, v.node, Some(RefName(counter + 1))));
      } else {
        NumberingAgrees(order[1..], counter);
        AgreeSkipsPlainLine(Lines(order[1..], counter), Refs(order[1..], counter), counter,
                            RefCount(order[1..]), Line(v.depth, v.node, None));
      }
    }
  }

  lemma {:induction false} RefsAreCounted(order: seq<Visit>, counter: nat)
    ensures |Refs(order, counter)| == RefCount(order)
    decreases |order|
  {
    hide IsInteractive;
    if order != [] {
      var next := if HasRef(order[0].node) then counter + 1 else counter;
      RefsAreCounted(order[1..], next);
      if HasRef(order[0].node) {
        var rest := Refs(order[1..], counter + 1);
        NumberingAgrees(order[1..], counter + 1);
        if RefName(counter + 1) in rest {
          var k :| counter + 1 < k <= counter + 1 + RefCount(order[1..]) && RefName(counter + 1) == RefName(k);
          RefNameIsInjective(k, counter + 1);
        }
        var merged := map[RefName(counter + 1) := order[0].node.backend.value] + rest;
        assert merged.Keys == {RefName(counter + 1)} + rest.Keys;
        assert |merged| == |merged.Keys| && |rest| == |rest.Keys|;
      }
    }
  }

  // -------------------------------------------------------------------- reachability

  ghost function Ids(order: seq<Visit>): set<string> {
    set i | 0 <= i < |order| :: order[i].node.id
  }

  ghost predicate NoRepeats(order: seq<Visit>) {
    forall i, j :: 0 <= i < j < |order| ==> order[i].node.id != order[j].node.id
  }

  predicate Distinct(nodes: seq<Node>) {
    forall i, j :: 0 <= i < j < |nodes| ==> nodes[i].id != nodes[j].id
  }

  predicate Edge(index: map<string, Node>, a: string, b: string) {
    a in index && b in index && b in index[a].children
  }

  predicate IsPath(index: map<string, Node>, path: seq<string>) {
    path != [] && forall i :: 0 <= i < |path| - 1 ==> Edge(index, path[i], path[i + 1])
  }

  ghost predicate Reachable(index: map<string, Node>, from: string, to: string) {
    exists path :: IsPath(index, path) && path[0] == from && path[|path| - 1] == to
  }

  ghost predicate Closed(index: map<string, Node>, inside: set<string>) {
    forall a, b :: a in inside && Edge(index, a, b) ==> b in inside
  }

  // The children of what was visited were visited too.
  ghost predicate Full(index: map<string, Node>, order: seq<Visit>, visited: set<string>) {
    forall i, id :: 0 <= i < |order| && id in order[i].node.children && id in index ==> id in visited
  }

  ghost predicate Indexed(index: map<string, Node>, order: seq<Visit>) {
    forall i :: 0 <= i < |order| ==> order[i].node.id in index && order[i].node == index[order[i].node.id]
  }

  lemma IdsOfSum(a: seq<Visit>, b: seq<Visit>)
    ensures Ids(a + b) == Ids(a) + Ids(b)
  {
    forall id | id in Ids(a) + Ids(b)
      ensures id in Ids(a + b)
    {
      if id in Ids(a) {
        var i :| 0 <= i < |a| && a[i].node.id == id;
        assert (a + b)[i] == a[i];
      } else {
        var i :| 0 <= i < |b| && b[i].node.id == id;
        assert (a + b)[|a| + i] == b[i];
      }
    }
  }

  /** What a walk adds: exactly the ids of its order, none twice, and with all their children. */
  ghost predicate Shape(index: map<string, Node>, visited: set<string>, w: Walk) {
    && w.visited == visited + Ids(w.order) && Ids(w.order) !! visited && NoRepeats(w.order)
    && Full(index, w.order, w.visited)
  }

  lemma NoRepeatsOfSum(a: seq<Visit>, b: seq<Visit>)
    requires NoRepeats(a) && NoRepeats(b) && Ids(a) !! Ids(b)
    ensures NoRepeats(a + b)
  {
    forall i, j | 0 <= i < |a| && 0 <= j < |b|
      ensures a[i].node.id != b[j].node.id
    {
      assert a[i].node.id in Ids(a) && b[j].node.id in Ids(b);
    }
  }

  lemma ShapeOfPair(index: map<string, Node>, visited: set<string>, a: Walk, b: Walk)
    requires Shape(index, visited, a) && Shape(index, a.visited, b)
    ensures Shape(index, visited, Walk(a.order + b.order, b.visited))
  {
    IdsOfSum(a.order, b.order);
    NoRepeatsOfSum(a.order, b.order);
  }

  lemma ShapeOfNode(index: map<string, Node>, node: Node, depth: nat, visited: set<string>, below: Walk)
    requires node.id in index && node.id !in visited
    requires Shape(index, visited + {node.id}, below)
    requires forall id :: id in node.children && id in index ==> id in below.visited
    ensures Shape(index, visited, Walk([Visit(node, depth)] + below.order, below.visited))
  {
    var first := [Visit(node, depth)];
    assert Ids(first) == {node.id} by {
      assert first[0].node.id == node.id;
    }
    IdsOfSum(first, below.order);
    NoRepeatsOfSum(first, below.order);
  }

  lemma {:induction false} WalkShape(index: map<string, Node>, node: Node, depth: nat, visited: set<string>)
    requires Consistent(index) && node.id in index
    ensures Shape(index, visited, Preorder(index, node, depth, visited))
    ensures node.id in Preorder(index, node, depth, visited).visited
    ensures var order := Preorder(index, node, depth, visited).order;
            order != [] ==> order[0] == Visit(node, depth) && Indexed(index, order[1..])
    decreases Unvisited(index, visited), 0
  {
    hide Shape, Indexed;
    if node.id in visited {
      EmptyShape(index, visited);
    } else {
      VisitingShrinks(index, node.id, visited);
      var below := PreorderAll(index, node.children, depth + 1, visited + {node.id});
      WalkAllShape(index, node.children, depth + 1, visited + {node.id});
      ShapeOfNode(index, node, depth, visited, below);
      assert ([Visit(node, depth)] + below.order)[1..] == below.order;
    }
  }

  lemma EmptyShape(index: map<string, Node>, visited: set<string>)
    ensures Shape(index, visited, Walk([], visited)) && Indexed(index, [])
  {
  }

  lemma IndexedSum(index: map<string, Node>, a: seq<Visit>, b: seq<Visit>)
    requires a != [] ==> a[0].node.id in index && index[a[0].node.id] == a[0].node && Indexed(index, a[1..])
    requires Indexed(index, b)
    ensures Indexed(index, a + b)
  {
    forall i | 0 < i < |a| ensures a[i].node.id in index && a[i].node == index[a[i].node.id] {
      assert a[i] == a[1..][i - 1];
    }
  }

  lemma {:induction false} WalkAllShape(
      index: map<string, Node>, ids: seq<string>, depth: nat, visited: set<string>)
    requires Consistent(index)
    ensures Shape(index, visited, PreorderAll(index, ids, depth, visited))
    ensures Indexed(index, PreorderAll(index, ids, depth, visited).order)
    ensures forall id :: id in ids && id in index ==> id in PreorderAll(index, ids, depth, visited).visited
    decreases Unvisited(index, visited), |ids|
  {
    hide Shape, Indexed;
    if ids == [] {
      EmptyShape(index, visited);
    } else if ids[0] !in index {
      WalkAllShape(index, ids[1..], depth, visited);
    } else {
      var first := Preorder(index, index[ids[0]], depth, visited);
      WalkShape(index, index[ids[0]], depth, visited);
      MoreVisited(index, visited, first.visited);
      WalkAllShape(index, ids[1..], depth, first.visited);
      var rest := PreorderAll(index, ids[1..], depth, first.visited);
      ShapeOfPair(index, visited, first, rest);
      IndexedSum(index, first.order, rest.order);
    }
  }

  lemma ReachableExtends(index: map<string, Node>, a: string, b: string, c: string)
    requires Edge(index, a, b) && Reachable(index, b, c)
    ensures Reachable(index, a, c)
  {
    var path :| IsPath(index, path) && path[0] == b && path[|path| - 1] == c;
    var longer := [a] + path;
    forall i | 0 <= i < |longer| - 1
      ensures Edge(index, longer[i], longer[i + 1])
    {
      if i > 0 {
        assert Edge(index, path[i - 1], path[i]);
      }
    }
    assert IsPath(index, longer) && longer[0] == a && longer[|longer| - 1] == c;
  }

  lemma {:induction false} WalkIsSound(
      index: map<string, Node>, node: Node, depth: nat, visited: set<string>, id: string)
    requires Consistent(index) && node.id in index && index[node.id] == node
    requires id in Ids(Preorder(index, node, depth, visited).order)
    ensures Reachable(index, node.id, id)
    decreases Unvisited(index, visited), 0
  {
    hide IsInteractive;
    VisitingShrinks(index, node.id, visited);
    var below := PreorderAll(index, node.children, depth + 1, visited + {node.id});
    IdsOfSum([Visit(node, depth)], below.order);
    if id in Ids(below.order) {
      var child := WalkAllIsSound(index, node.children, depth + 1, visited + {node.id}, id);
      ReachableExtends(index, node.id, child, id);
    } else {
      assert IsPath(index, [id]);
    }
  }

  lemma {:induction false} WalkAllIsSound(
      index: map<string, Node>, ids: seq<string>, depth: nat, visited: set<string>, id: string)
    returns (child: string)
    requires Consistent(index)
    requires id in Ids(PreorderAll(index, ids, depth, visited).order)
    ensures child in ids && child in index && Reachable(index, child, id)
    decreases Unvisited(index, visited), |ids|
  {
    hide IsInteractive;
    if ids[0] !in index {
      child := WalkAllIsSound(index, ids[1..], depth, visited, id);
    } else {
      var first := Preorder(index, index[ids[0]], depth, visited);
      MoreVisited(index, visited, first.visited);
      var rest := PreorderAll(index, ids[1..], depth, first.visited);
      IdsOfSum(first.order, rest.order);
      if id in Ids(first.order) {
        WalkIsSound(index, index[ids[0]], depth, visited, id);
        child := ids[0];
      } else {
        child := WalkAllIsSound(index, ids[1..], depth, first.visited, id);
      }
    }
  }

  lemma {:induction false} PathStaysInside(index: map<string, Node>, path: seq<string>, inside: set<string>)
    requires IsPath(index, path) && path[0] in inside && Closed(index, inside)
    ensures path[|path| - 1] in inside
    decreases |path|
  {
    if |path| > 1 {
      assert Edge(index, path[0], path[1]);
      var rest := path[1..];
      forall i | 0 <= i < |rest| - 1
        ensures Edge(index, rest[i], rest[i + 1])
      {
        assert Edge(index, path[i + 1], path[i + 2]);
      }
      PathStaysInside(index, rest, inside);
    }
  }

  lemma {:induction false} DistinctIndex(nodes: seq<Node>)
    requires Distinct(nodes)
    ensures forall n :: n in nodes ==> n.id in Index(nodes) && Index(nodes)[n.id] == n
  {
    if nodes != [] {
      var front := nodes[..|nodes| - 1];
      assert nodes == front + [nodes[|nodes| - 1]];
      DistinctIndex(front);
      forall n | n in nodes
        ensures Index(nodes)[n.id] == n
      {
        if n in front {
          var i :| 0 <= i < |front| && front[i] == n;
          assert nodes[i] == n;
        }
      }
    }
  }

  lemma IndexedIsClosed(index: map<string, Node>, w: Walk)
    requires Shape(index, {}, w) && Indexed(index, w.order)
    ensures Closed(index, w.visited)
  {
    forall a, b | a in w.visited && Edge(index, a, b) ensures b in w.visited {
      var i :| 0 <= i < |w.order| && w.order[i].node.id == a;
      assert b in w.order[i].node.children;
    }
  }

  /** With distinct ids both walks visit every node reachable from the chosen root exactly once, and
      nothing else, whatever cycles the graph has. */
  lemma VisitsReachableExactlyOnce(nodes: seq<Node>, id: string)
    requires nodes != [] && Distinct(nodes)
    ensures var order := Preorder(Index(nodes), Root(nodes), 0, {}).order;
            && NoRepeats(order)
            && (id in Ids(order) <==> Reachable(Index(nodes), Root(nodes).id, id))
  {
    var index, root := Index(nodes), Root(nodes);
    DistinctIndex(nodes);
    WalkShape(index, root, 0, {});
    var w := Preorder(index, root, 0, {});
    IndexedSum(index, w.order, []);
    assert w.order + [] == w.order;
    IndexedIsClosed(index, w);
    if id in Ids(w.order) {
      WalkIsSound(index, root, 0, {}, id);
    }
    if Reachable(index, root.id, id) {
      var path :| IsPath(index, path) && path[0] == root.id && path[|path| - 1] == id;
      PathStaysInside(index, path, w.visited);
    }
  }

  // -------------------------------------------------------------------- indentation

  // The visit a reader takes for the parent of visit i: the nearest earlier one that stands one
  // level further out; and its node does have the node of i as a child.
  ghost predicate IsParent(order: seq<Visit>, j: nat, i: nat) {
    && j < i < |order| && order[i].depth == order[j].depth + 1
    && (forall k :: j < k < i ==> order[k].depth >= order[i].depth)
    && order[i].node.id in order[j].node.children
  }

  ghost predicate HasParent(order: seq<Visit>, i: nat) { exists j: nat :: IsParent(order, j, i) }

  predicate Before(ids: seq<string>, x: string, y: string) {
    exists p: nat, q: nat :: p < q < |ids| && ids[p] == x && ids[q] == y
  }

  // Everything is at the level of the heads or below a parent, and every parent's children stand in
  // the order in which it lists them.
  ghost predicate Levels(order: seq<Visit>, depth: nat) {
    && (order != [] ==> order[0].depth == depth)
    && (forall i :: 0 <= i < |order| ==> order[i].depth >= depth)
    && (forall i: nat :: i < |order| && order[i].depth > depth ==> HasParent(order, i))
  }

  ghost predicate Heads(order: seq<Visit>, ids: seq<string>, depth: nat) {
    && (forall i :: 0 <= i < |order| && order[i].depth == depth ==> order[i].node.id in ids)
    && (forall i, k :: 0 <= i < k < |order| && order[i].depth == order[k].depth == depth ==>
          Before(ids, order[i].node.id, order[k].node.id))
  }

  ghost predicate KeepsOrder(order: seq<Visit>, j: nat, i: nat, k: nat) {
    IsParent(order, j, i) && IsParent(order, j, k) ==>
      Before(order[j].node.children, order[i].node.id, order[k].node.id)
  }

  ghost predicate Siblings(order: seq<Visit>) {
    forall j: nat, i: nat, k: nat :: i < k ==> KeepsOrder(order, j, i, k)
  }

  lemma ParentInFront(a: seq<Visit>, b: seq<Visit>, j: nat, i: nat)
    requires i < |a|
    ensures IsParent(a + b, j, i) <==> IsParent(a, j, i)
  {
    assert forall k :: 0 <= k <= i ==> (a + b)[k] == a[k];
  }

  lemma ParentBehind(a: seq<Visit>, b: seq<Visit>, j: nat, i: nat)
    ensures IsParent(a + b, |a| + j, |a| + i) <==> IsParent(b, j, i)
  {
    if j < i < |b| {
      assert forall k :: 0 <= k < |b| ==> (a + b)[|a| + k] == b[k];
      if IsParent(a + b, |a| + j, |a| + i) {
        forall k | j < k < i ensures b[k].depth >= b[i].depth {
          assert (a + b)[|a| + k].depth >= (a + b)[|a| + i].depth;
        }
      }
    }
  }

  lemma LevelsOfSum(a: seq<Visit>, b: seq<Visit>, depth: nat)
    requires Levels(a, depth) && Levels(b, depth)
    ensures Levels(a + b, depth)
  {
    hide IsParent;
    assert forall i: nat :: i < |a| ==> (a + b)[i] == a[i];
    forall i: nat | i < |a + b| && (a + b)[i].depth > depth ensures HasParent(a + b, i) {
      if i < |a| {
        assert HasParent(a, i);
        var j: nat :| IsParent(a, j, i);
        ParentInFront(a, b, j, i);
      } else {
        assert HasParent(b, i - |a|);
        var j: nat :| IsParent(b, j, i - |a|);
        ParentBehind(a, b, j, i - |a|);
        assert IsParent(a + b, |a| + j, i);
      }
    }
  }

  // Nothing behind the start of the second part hangs below the first.
  lemma PartsDoNotMix(a: seq<Visit>, b: seq<Visit>, depth: nat, j: nat, i: nat)
    requires Levels(a, depth) && Levels(b, depth) && j < |a| <= i
    ensures !IsParent(a + b, j, i)
  {
    if i < |a + b| {
      assert (a + b)[j] == a[j] && (a + b)[|a|] == b[0];
    }
  }

  lemma OrderOfSum(a: seq<Visit>, b: seq<Visit>, depth: nat, j: nat, i: nat, k: nat)
    requires Levels(a, depth) && Levels(b, depth) && Siblings(a) && Siblings(b) && i < k
    ensures KeepsOrder(a + b, j, i, k)
  {
    hide Levels, Before;
    if j < |a| {
      if i < |a| {
        ParentInFront(a, b, j, i);
      } else {
        PartsDoNotMix(a, b, depth, j, i);
      }
      if k < |a| {
        ParentInFront(a, b, j, k);
      } else {
        PartsDoNotMix(a, b, depth, j, k);
      }
      assert KeepsOrder(a, j, i, k);
    } else if i >= |a| {
      ParentBehind(a, b, j - |a|, i - |a|);
      ParentBehind(a, b, j - |a|, k - |a|);
      assert KeepsOrder(b, j - |a|, i - |a|, k - |a|);
    }
  }

  lemma SiblingsOfSum(a: seq<Visit>, b: seq<Visit>, depth: nat)
    requires Levels(a, depth) && Levels(b, depth) && Siblings(a) && Siblings(b)
    ensures Siblings(a + b)
  {
    hide KeepsOrder, Levels;
    forall j: nat, i: nat, k: nat | i < k ensures KeepsOrder(a + b, j, i, k) {
      OrderOfSum(a, b, depth, j, i, k);
    }
  }

  lemma HeadsOfSum(a: seq<Visit>, b: seq<Visit>, ids: seq<string>, depth: nat)
    requires ids != [] && Heads(a, ids[..1], depth) && Heads(b, ids[1..], depth)
    ensures Heads(a + b, ids, depth)
  {
    var all := a + b;
    assert ids[..1] == [ids[0]];
    forall i, k | 0 <= i < k < |all| && all[i].depth == all[k].depth == depth
      ensures Before(ids, all[i].node.id, all[k].node.id)
    {
      if k < |a| {
        OneIsNotBefore(ids[0], a[i].node.id, a[k].node.id);
      } else if i < |a| {
        assert b[k - |a|].node.id in ids[1..];
        var q: nat :| q < |ids[1..]| && ids[1..][q] == b[k - |a|].node.id;
        assert ids[q + 1] == all[k].node.id && ids[0] == all[i].node.id;
      } else {
        BeforeWiden(ids, b[i - |a|].node.id, b[k - |a|].node.id);
      }
    }
  }

  lemma BeforeWiden(ids: seq<string>, x: string, y: string)
    requires ids != [] && Before(ids[1..], x, y)
    ensures Before(ids, x, y)
  {
    var p: nat, q: nat :| p < q < |ids[1..]| && ids[1..][p] == x && ids[1..][q] == y;
    assert ids[p + 1] == x && ids[q + 1] == y;
  }

  lemma HeadsWiden(order: seq<Visit>, ids: seq<string>, depth: nat)
    requires ids != [] && Heads(order, ids[1..], depth)
    ensures Heads(order, ids, depth)
  {
    forall i, k | 0 <= i < k < |order| && order[i].depth == order[k].depth == depth
      ensures Before(ids, order[i].node.id, order[k].node.id)
    {
      BeforeWiden(ids, order[i].node.id, order[k].node.id);
    }
  }

  lemma ParentUnder(v: Visit, below: seq<Visit>, i: nat)
    requires Levels(below, v.depth + 1) && Heads(below, v.node.children, v.depth + 1) && i < |below|
    ensures HasParent([v] + below, i + 1)
  {
    var all := [v] + below;
    assert all[i + 1] == below[i];
    if below[i].depth == v.depth + 1 {
      assert forall k :: 0 < k < |all| ==> all[k] == below[k - 1];
      assert IsParent(all, 0, i + 1);
    } else {
      hide IsParent;
      assert HasParent(below, i);
      var j: nat :| IsParent(below, j, i);
      ParentBehind([v], below, j, i);
      assert IsParent(all, j + 1, i + 1);
    }
  }

  lemma LevelsUnder(v: Visit, below: seq<Visit>)
    requires Levels(below, v.depth + 1) && Heads(below, v.node.children, v.depth + 1)
    ensures Levels([v] + below, v.depth) && Heads([v] + below, [v.node.id], v.depth)
  {
    hide HasParent, Before;
    var all := [v] + below;
    assert forall k :: 0 < k < |all| ==> all[k] == below[k - 1];
    forall i: nat | i < |all| && all[i].depth > v.depth ensures HasParent(all, i) {
      ParentUnder(v, below, i - 1);
    }
  }

  lemma OrderUnder(v: Visit, below: seq<Visit>, j: nat, i: nat, k: nat)
    requires Heads(below, v.node.children, v.depth + 1) && Siblings(below) && i < k
    ensures KeepsOrder([v] + below, j, i, k)
  {
    hide Before;
    var all := [v] + below;
    if 0 < i && k < |all| {
      assert all[i] == below[i - 1] && all[k] == below[k - 1];
      if j > 0 {
        ParentBehind([v], below, j - 1, i - 1);
        ParentBehind([v], below, j - 1, k - 1);
        assert KeepsOrder(below, j - 1, i - 1, k - 1);
      }
    }
  }

  lemma SiblingsUnder(v: Visit, below: seq<Visit>)
    requires Heads(below, v.node.children, v.depth + 1) && Siblings(below)
    ensures Siblings([v] + below)
  {
    hide KeepsOrder, Heads;
    forall j: nat, i: nat, k: nat | i < k ensures KeepsOrder([v] + below, j, i, k) {
      OrderUnder(v, below, j, i, k);
    }
  }

  ghost predicate Laid(order: seq<Visit>, ids: seq<string>, depth: nat) {
    Levels(order, depth) && Heads(order, ids, depth) && Siblings(order)
  }

  lemma LaidEmpty(ids: seq<string>, depth: nat)
    ensures Laid([], ids, depth)
  {
  }

  lemma LaidUnder(v: Visit, below: seq<Visit>)
    requires Laid(below, v.node.children, v.depth + 1)
    ensures Laid([v] + below, [v.node.id], v.depth)
  {
    hide Levels, Heads, Siblings;
    LevelsUnder(v, below);
    SiblingsUnder(v, below);
  }

  lemma LaidSum(a: seq<Visit>, b: seq<Visit>, ids: seq<string>, depth: nat)
    requires ids != [] && Laid(a, [ids[0]], depth) && Laid(b, ids[1..], depth)
    ensures Laid(a + b, ids, depth)
  {
    hide Levels, Heads, Siblings;
    assert ids[..1] == [ids[0]];
    LevelsOfSum(a, b, depth);
    HeadsOfSum(a, b, ids, depth);
    SiblingsOfSum(a, b, depth);
  }

  lemma {:induction false} WalkIsLaid(index: map<string, Node>, node: Node, depth: nat, visited: set<string>)
    requires Consistent(index) && node.id in index
    ensures Laid(Preorder(index, node, depth, visited).order, [node.id], depth)
    decreases Unvisited(index, visited), 0
  {
    hide Laid;
    if node.id in visited {
      LaidEmpty([node.id], depth);
    } else {
      VisitingShrinks(index, node.id, visited);
      WalkAllIsLaid(index, node.children, depth + 1, visited + {node.id});
      LaidUnder(Visit(node, depth), PreorderAll(index, node.children, depth + 1, visited + {node.id}).order);
    }
  }

  lemma {:induction false} WalkAllIsLaid(
      index: map<string, Node>, ids: seq<string>, depth: nat, visited: set<string>)
    requires Consistent(index)
    ensures Laid(PreorderAll(index, ids, depth, visited).order, ids, depth)
    decreases Unvisited(index, visited), |ids|
  {
    hide Levels, Heads, Siblings;
    if ids == [] {
      LaidEmpty(ids, depth);
    } else if ids[0] !in index {
      WalkAllIsLaid(index, ids[1..], depth, visited);
      HeadsWiden(PreorderAll(index, ids[1..], depth, visited).order, ids, depth);
    } else {
      var first := Preorder(index, index[ids[0]], depth, visited);
      WalkIsLaid(index, index[ids[0]], depth, visited);
      MoreVisited(index, visited, first.visited);
      WalkAllIsLaid(index, ids[1..], depth, first.visited);
      LaidSum(first.order, PreorderAll(index, ids[1..], depth, first.visited).order, ids, depth);
    }
  }

  // -------------------------------------------------------------------- the page as printed

  predicate IsId(nodes: seq<Node>, id: string) { exists k :: 0 <= k < |nodes| && nodes[k].id == id }

  ghost predicate IsFirstWebArea(nodes: seq<Node>, k: nat) {
    && k < |nodes| && nodes[k].role == "rootWebArea"
    && forall j :: 0 <= j < k ==> nodes[j].role != "rootWebArea"
  }

  // The last of the nodes with its id.
  ghost predicate IsLatest(nodes: seq<Node>, n: Node) {
    exists k: nat :: k < |nodes| && nodes[k] == n && forall j :: k < j < |nodes| ==> nodes[j].id != n.id
  }

  // The first web area; without one the node "0", and without that the first node.
  ghost predicate IsRoot(nodes: seq<Node>, root: Node) {
    if exists k: nat :: IsFirstWebArea(nodes, k) then
      exists k: nat :: IsFirstWebArea(nodes, k) && root == nodes[k]
    else if IsId(nodes, "0") then IsLatest(nodes, root) && root.id == "0"
    else nodes != [] && root == nodes[0]
  }

  lemma StillLatest(nodes: seq<Node>, last: Node, n: Node)
    requires IsLatest(nodes, n) && last.id != n.id
    ensures IsLatest(nodes + [last], n)
  {
    var k: nat :| k < |nodes| && nodes[k] == n && forall j :: k < j < |nodes| ==> nodes[j].id != n.id;
    assert (nodes + [last])[k] == n;
  }

  lemma LastIsLatest(nodes: seq<Node>, last: Node)
    ensures IsLatest(nodes + [last], last)
  {
    assert (nodes + [last])[|nodes|] == last;
  }

  lemma {:induction false} IndexIsLatest(nodes: seq<Node>)
    ensures forall id :: id in Index(nodes) ==> IsLatest(nodes, Index(nodes)[id])
  {
    hide IsLatest;
    if nodes != [] {
      var before, last := nodes[..|nodes| - 1], nodes[|nodes| - 1];
      assert nodes == before + [last];
      IndexIsLatest(before);
      LastIsLatest(before, last);
      forall id | id in Index(nodes) && id != last.id ensures IsLatest(nodes, Index(nodes)[id]) {
        StillLatest(before, last, Index(before)[id]);
      }
    }
  }

  lemma {:induction false} FirstWebAreaIsFirst(nodes: seq<Node>)
    ensures FirstWebArea(nodes).None? ==> forall k: nat :: !IsFirstWebArea(nodes, k)
    ensures FirstWebArea(nodes).Some? ==> exists k: nat :: IsFirstWebArea(nodes, k) && FirstWebArea(nodes).value == nodes[k]
  {
    if nodes != [] {
      if nodes[0].role == "rootWebArea" {
        assert IsFirstWebArea(nodes, 0);
      } else {
        FirstWebAreaIsFirst(nodes[1..]);
        forall k: nat | IsFirstWebArea(nodes, k) ensures k > 0 && IsFirstWebArea(nodes[1..], k - 1) {
        }
        if FirstWebArea(nodes).Some? {
          var k: nat :| IsFirstWebArea(nodes[1..], k) && FirstWebArea(nodes).value == nodes[1..][k];
          assert IsFirstWebArea(nodes, k + 1);
        }
      }
    }
  }

  lemma RootIsRoot(nodes: seq<Node>)
    requires nodes != []
    ensures IsRoot(nodes, Root(nodes))
  {
    FirstWebAreaIsFirst(nodes);
    IndexIsLatest(nodes);
    hide IsLatest, IsFirstWebArea;
    if "0" in Index(nodes) {
      assert Index(nodes)["0"] in nodes;
    }
  }

  // What a reader sees of the lines: which node stands where.
  function Shown(lines: seq<Line>): seq<Visit> {
    seq(|lines|, i requires 0 <= i < |lines| => Visit(lines[i].node, lines[i].depth))
  }

  // Each line carries the next ref exactly when its node is one to act on.
  ghost predicate NumberedFrom(lines: seq<Line>, counter: nat) {
    forall i :: 0 <= i < |lines| ==>
      lines[i].ref == if HasRef(lines[i].node) then Some(RefName(counter + RefCount(Shown(lines)[..i]) + 1)) else None
  }

  lemma {:induction false} LinesShowTheVisits(order: seq<Visit>, counter: nat)
    ensures Shown(Lines(order, counter)) == order && NumberedFrom(Lines(order, counter), counter)
    decreases |order|
  {
    hide IsInteractive, RefName, RefCount;
    if order != [] {
      var next := NextCounter(order[0], counter);
      var lines, rest := Lines(order, counter), Lines(order[1..], next);
      LinesShowTheVisits(order[1..], next);
      assert Shown(lines) == [order[0]] + Shown(rest);
      forall i | 0 <= i < |lines|
        ensures RefCount(Shown(lines)[..i]) + counter == if i == 0 then counter else next + RefCount(Shown(rest)[..i - 1])
      {
        OneVisit(order[0], 0);
        if i == 0 {
          assert Shown(lines)[..0] == [];
        } else {
          assert Shown(lines)[..i] == [order[0]] + Shown(rest)[..i - 1];
          RefCountOfSum([order[0]], Shown(rest)[..i - 1]);
        }
      }
      forall i | 0 < i < |lines| ensures lines[i] == rest[i - 1] {
      }
    }
  }

  // The printed page, said about the nodes alone: the root first and outermost; everything else one
  // level below a parent that has it as a child, in the order of that parent's children; no id
  // twice; and every child of a printed node printed.
  ghost predicate Outlines(nodes: seq<Node>, shown: seq<Visit>) {
    && shown != [] && IsRoot(nodes, shown[0].node) && shown[0].depth == 0
    && (forall i: nat :: 0 < i < |shown| ==> HasParent(shown, i))
    && (forall i: nat :: 0 < i < |shown| ==> IsLatest(nodes, shown[i].node))
    && Siblings(shown) && NoRepeats(shown)
    && forall i: nat :: i < |shown| ==> ShowsChildren(nodes, shown, i)
  }

  ghost predicate ShowsChildren(nodes: seq<Node>, shown: seq<Visit>, i: nat)
    requires i < |shown|
  {
    forall id :: id in shown[i].node.children && IsId(nodes, id) ==> id in Ids(shown)
  }

  lemma OnlyTheRootIsOutermost(order: seq<Visit>, id: string, i: nat)
    requires Laid(order, [id], 0) && 0 < i < |order|
    ensures HasParent(order, i)
  {
    hide HasParent, Siblings, Before;
    OneIsNotBefore(id, order[0].node.id, order[i].node.id);
  }

  lemma ShownAreLatest(nodes: seq<Node>, order: seq<Visit>, i: nat)
    requires 0 < i < |order| && Indexed(Index(nodes), order[1..])
    ensures IsLatest(nodes, order[i].node)
  {
    hide IsLatest;
    IndexIsLatest(nodes);
    assert order[1..][i - 1] == order[i];
  }

  lemma FullShowsChildren(nodes: seq<Node>, w: Walk, i: nat)
    requires Shape(Index(nodes), {}, w) && i < |w.order|
    ensures ShowsChildren(nodes, w.order, i)
  {
  }

  lemma LaidSiblings(order: seq<Visit>, ids: seq<string>)
    requires Laid(order, ids, 0)
    ensures Siblings(order)
  {
  }

  lemma VisitsTheRoot(nodes: seq<Node>)
    requires nodes != []
    ensures var order := Preorder(Index(nodes), Root(nodes), 0, {}).order;
            order != [] && order[0] == Visit(Root(nodes), 0)
  {
    hide Preorder, Indexed, NoRepeats, Full;
    WalkShape(Index(nodes), Root(nodes), 0, {});
    assert Root(nodes).id in Ids(Preorder(Index(nodes), Root(nodes), 0, {}).order);
  }

  lemma PreorderOutlines(nodes: seq<Node>)
    requires nodes != []
    ensures Outlines(nodes, Preorder(Index(nodes), Root(nodes), 0, {}).order)
  {
    hide IsRoot, IsLatest, HasParent, Laid, Siblings, NoRepeats, Indexed, Index, Root, Ids, ShowsChildren, Preorder, Full;
    var index, root := Index(nodes), Root(nodes);
    var w := Preorder(index, root, 0, {});
    RootIsRoot(nodes);
    VisitsTheRoot(nodes);
    WalkShape(index, root, 0, {});
    WalkIsLaid(index, root, 0, {});
    LaidSiblings(w.order, [root.id]);
    forall i: nat | 0 < i < |w.order|
      ensures IsLatest(nodes, w.order[i].node) && HasParent(w.order, i)
    {
      OnlyTheRootIsOutermost(w.order, root.id, i);
      ShownAreLatest(nodes, w.order, i);
    }
    forall i: nat | i < |w.order| ensures ShowsChildren(nodes, w.order, i) {
      FullShowsChildren(nodes, w, i);
    }
  }

  lemma OneIsNotBefore(id: string, x: string, y: string)
    ensures !Before([id], x, y)
  {
  }

  /** The page text: every node reachable from the root on exactly one line, indented below its
      parent, with the refs counted down the page. */
  method FormatSnapshot(nodes: seq<Node>) returns (lines: seq<Line>)
    ensures nodes == [] ==> lines == []
    ensures nodes != [] ==> lines == Lines(Preorder(Index(nodes), Root(nodes), 0, {}).order, 0)
    ensures nodes != [] ==> Outlines(nodes, Shown(lines)) && NumberedFrom(lines, 0)
    ensures nodes != [] && Distinct(nodes) ==>
              forall id :: id in Ids(Shown(lines)) <==> Reachable(Index(nodes), Shown(lines)[0].node.id, id)
  {
    if nodes == [] {
      return [];
    }
    hide Preorder, Reachable, Ids, Distinct, Outlines, NumberedFrom, Lines, Shown;
    var formatter := new SnapshotFormatter(Index(nodes));
    lines := formatter.FormatNode(Root(nodes), 0);
    LinesShowTheVisits(Preorder(Index(nodes), Root(nodes), 0, {}).order, 0);
    PreorderOutlines(nodes);
    VisitsTheRoot(nodes);
    if Distinct(nodes) {
      PrintedIsReachable(nodes);
    }
  }

  lemma PrintedIsReachable(nodes: seq<Node>)
    requires nodes != [] && Distinct(nodes)
    ensures forall id :: id in Ids(Preorder(Index(nodes), Root(nodes), 0, {}).order)
                    <==> Reachable(Index(nodes), Root(nodes).id, id)
  {
    hide Preorder, Reachable, Ids, Index, Root, Distinct, NoRepeats;
    forall id
      ensures id in Ids(Preorder(Index(nodes), Root(nodes), 0, {}).order)
         <==> Reachable(Index(nodes), Root(nodes).id, id)
    {
      VisitsReachableExactlyOnce(nodes, id);
    }
  }

  /** Snapshot and ref map of the same tree, taken by the two separate walks, use exactly the refs
      e1..en, and every ref names the node of the one line that prints it. */
  method SnapshotAndRefs(nodes: seq<Node>) returns (lines: seq<Line>, refs: map<string, int>)
    ensures Agree(lines, refs, 0, |refs|)
  {
    lines := FormatSnapshot(nodes);
    refs := BuildRefMap(nodes);
    ghost var order := if nodes == [] then [] else Preorder(Index(nodes), Root(nodes), 0, {}).order;
    NumberingAgrees(order, 0);
    RefsAreCounted(order, 0);
  }
}
