/** The campaign's dependency graph (src/vq/campaign.py:100-289). */
module CampaignGraph {
  import opened Common
  import StringOrder

  datatype Kind = Build | Compute | Validate | Render | Other

  datatype Input = Input(name: string, producer: string, output: string)

  /** An ordering edge: on success, or on completion whatever the outcome. */
  datatype After = After(node: string, onSuccess: bool)

  datatype Node = Node(kind: Kind, inputs: seq<Input>, outputs: seq<string>, after: seq<After>)

  type Nodes = map<string, Node>

  /** Predecessor to whether it must succeed. An input's producer always must; a declared edge
      counts only where no input speaks already, the first one first. */
  function Edges(n: Node): map<string, bool> {
    AfterEdges(n.after, InputEdges(n.inputs))
  }

  function InputEdges(inputs: seq<Input>): map<string, bool> {
    map i | 0 <= i < |inputs| :: inputs[i].producer := true
  }

  function AfterEdges(after: seq<After>, edges: map<string, bool>): map<string, bool>
    decreases |after|
  {
    if after == [] then edges
    else
      var first := after[0];
      AfterEdges(after[1..], if first.node in edges then edges else edges[first.node := first.onSuccess])
  }

  /** The first declared edge on the node. */
  ghost predicate FirstOn(after: seq<After>, d: string, k: int) {
    0 <= k < |after| && after[k].node == d && forall j :: 0 <= j < k ==> after[j].node != d
  }

  ghost predicate Produces(n: Node, d: string) {
    exists i :: 0 <= i < |n.inputs| && n.inputs[i].producer == d
  }

  /** It must succeed first: it produces an input, or its first declared edge says so. */
  ghost predicate MustSucceed(n: Node, d: string) {
    Produces(n, d) || exists k :: FirstOn(n.after, d, k) && n.after[k].onSuccess
  }

  /** It must only end first: it produces no input, and its first declared edge asks no more. */
  ghost predicate MustEnd(n: Node, d: string) {
    !Produces(n, d) && exists k :: FirstOn(n.after, d, k) && !n.after[k].onSuccess
  }

  lemma {:induction false} AfterEdgesMean(after: seq<After>, edges: map<string, bool>, d: string)
    ensures d in edges ==> d in AfterEdges(after, edges) && AfterEdges(after, edges)[d] == edges[d]
    ensures d !in edges ==>
      && (d in AfterEdges(after, edges) <==> exists k :: FirstOn(after, d, k))
      && forall k :: FirstOn(after, d, k) ==> AfterEdges(after, edges)[d] == after[k].onSuccess
  {
    if after != [] {
      var first, rest := after[0], after[1..];
      AfterEdgesMean(rest, if first.node in edges then edges else edges[first.node := first.onSuccess], d);
      if first.node == d {
        assert FirstOn(after, d, 0);
      } else {
        forall k | FirstOn(rest, d, k) ensures FirstOn(after, d, k + 1) { FirstShifts(after, d, k); }
        forall k | FirstOn(after, d, k) ensures k > 0 && FirstOn(rest, d, k - 1) { FirstShifts(after, d, k - 1); }
      }
    }
  }

  lemma FirstShifts(after: seq<After>, d: string, k: int)
    requires after != [] && after[0].node != d
    ensures FirstOn(after[1..], d, k) <==> FirstOn(after, d, k + 1)
  {
    if FirstOn(after[1..], d, k) {
      forall j | 0 <= j < k + 1 ensures after[j].node != d {
        if j > 0 { assert after[1..][j - 1].node != d; }
      }
    }
  }

  /** Each edge, over what the node declares. */
  lemma EdgesMean(n: Node, d: string)
    ensures d in Edges(n) <==> MustSucceed(n, d) || MustEnd(n, d)
    ensures d in Edges(n) ==> (Edges(n)[d] <==> MustSucceed(n, d)) && (!Edges(n)[d] <==> MustEnd(n, d))
  {
    hide AfterEdges, FirstOn;
    AfterEdgesMean(n.after, InputEdges(n.inputs), d);
    FirstUnique(n.after, d);
    assert Produces(n, d) <==> d in InputEdges(n.inputs);
  }

  lemma FirstUnique(after: seq<After>, d: string)
    ensures forall i, j :: FirstOn(after, d, i) && FirstOn(after, d, j) ==> i == j
  {
  }

  function Deps(nodes: Nodes, id: string): set<string>
    requires id in nodes
  {
    Edges(nodes[id]).Keys
  }

  ghost predicate Closed(nodes: Nodes) {
    forall id :: id in nodes ==> Deps(nodes, id) <= nodes.Keys
  }

  // --------------------------------------------------------------------
  // Walks, cycles and orders

  /** Each node of the walk depends on the next. */
  ghost predicate Walk(nodes: Nodes, w: seq<string>) {
    && (forall i :: 0 <= i < |w| ==> w[i] in nodes)
    && forall i :: 0 <= i < |w| - 1 ==> w[i + 1] in Deps(nodes, w[i])
  }

  ghost predicate Cycle(nodes: Nodes, c: seq<string>) {
    |c| >= 2 && Walk(nodes, c) && c[0] == c[|c| - 1]
  }

  ghost predicate Acyclic(nodes: Nodes) {
    forall c :: !Cycle(nodes, c)
  }

  ghost predicate Distinct(s: seq<string>) {
    forall i, j :: 0 <= i < j < |s| ==> s[i] != s[j]
  }

  /** Every node listed comes after all it depends on. */
  ghost predicate Sequenced(nodes: Nodes, order: seq<string>) {
    forall i :: 0 <= i < |order| ==>
      order[i] in nodes && forall d :: d in Deps(nodes, order[i]) ==> d in order[..i]
  }

  lemma {:induction false} WalkDescends(nodes: Nodes, order: seq<string>, w: seq<string>, i: nat)
    requires Sequenced(nodes, order) && Distinct(order) && Walk(nodes, w) && w != []
    requires i < |order| && order[i] == w[0]
    ensures |w| > 1 ==> w[|w| - 1] in order[..i]
    ensures |w| == 1 ==> w[|w| - 1] == order[i]
    decreases |w|
  {
    if |w| > 1 {
      var d := w[1];
      var j :| 0 <= j < i && order[j] == d;
      assert Walk(nodes, w[1..]) by {
        forall k | 0 <= k < |w[1..]| - 1 ensures w[1..][k + 1] in Deps(nodes, w[1..][k]) {
          assert w[k + 1 + 1] in Deps(nodes, w[k + 1]);
        }
      }
      WalkDescends(nodes, order, w[1..], j);
      assert order[..j] <= order[..i];
    }
  }

  /** An order with every node after its dependencies leaves no room for a cycle. */
  lemma SequencedAcyclic(nodes: Nodes, order: seq<string>)
    requires Sequenced(nodes, order) && Distinct(order) && forall id :: id in nodes ==> id in order
    ensures Acyclic(nodes)
  {
    forall c ensures !Cycle(nodes, c) {
      if Cycle(nodes, c) {
        var i :| 0 <= i < |order| && order[i] == c[0];
        WalkDescends(nodes, order, c, i);
        assert false;
      }
    }
  }

  // --------------------------------------------------------------------
  // _find_cycle

  datatype Colour = Grey | Black

  class CycleFinder {
    const nodes: Nodes
    var colour: map<string, Colour>
    var stack: seq<string>
    /** The black nodes, in the order they were finished. */
    ghost var finished: seq<string>

    ghost predicate Valid()
      reads this
    {
      && Closed(nodes)
      && Walk(nodes, stack) && Distinct(stack)
      && Sequenced(nodes, finished) && Distinct(finished)
      && (forall id :: id in colour ==> id in nodes)
      && (forall id :: id in stack <==> id in colour && colour[id] == Grey)
      && (forall id :: id in finished <==> id in colour && colour[id] == Black)
    }

    constructor (nodes: Nodes)
      requires Closed(nodes)
      ensures Valid() && this.nodes == nodes && stack == [] && colour == map[]
    {
      this.nodes := nodes;
      colour, stack, finished := map[], [], [];
    }

    method Enter(id: string)
      requires Valid() && id in nodes && id !in colour
      requires stack != [] ==> id in Deps(nodes, stack[|stack| - 1])
      modifies this`colour, this`stack
      ensures Valid() && stack == old(stack) + [id] && colour == old(colour)[id := Grey]
    {
      hide Walk, Sequenced, Deps;
      ExtendWalk(nodes, stack, id);
      colour := colour[id := Grey];
      stack := stack + [id];
    }

    method Leave(id: string)
      requires Valid() && stack != [] && stack[|stack| - 1] == id
      requires forall d :: d in Deps(nodes, id) ==> d in colour && colour[d] == Black
      modifies this`colour, this`stack, this`finished
      ensures Valid() && stack == old(stack)[..|old(stack)| - 1] && colour == old(colour)[id := Black]
    {
      hide Sequenced, Deps, Closed;
      assert id in stack;
      FinishNode(nodes, finished, id);
      colour := colour[id := Black];
      stack := stack[..|stack| - 1];
      finished := finished + [id];
    }

    /** Depth first from a node not yet seen, which the top of the stack depends on. */
    method Visit(id: string) returns (found: Option<seq<string>>)
      requires Valid() && id in nodes && id !in colour
      requires stack != [] ==> id in Deps(nodes, stack[|stack| - 1])
      modifies this`colour, this`stack, this`finished
      ensures found.Some? ==> Cycle(nodes, found.value)
      ensures found.None? ==>
        Valid() && stack == old(stack) && Darker(old(colour), colour) && id in colour && colour[id] == Black
      decreases nodes.Keys - colour.Keys
    {
      hide Walk, Sequenced, Deps, Distinct, Cycle, Closed, AllBlack, Darker;
      ghost var before := colour;
      Enter(id);
      DarkerStart(before, id);
      var rest := Deps(nodes, id);
      NoneLeft(colour, Deps(nodes, id));
      while rest != {}
        invariant Valid() && stack == old(stack) + [id] && rest <= Deps(nodes, id)
        invariant Darker(before[id := Grey], colour) && AllBlack(colour, Deps(nodes, id) - rest)
        decreases |rest|
      {
        var dep :| dep in rest;
        DepsInside(nodes, id);
        ghost var colour0 := colour;
        if dep in colour && colour[dep] == Grey {
          var k := IndexIn(stack, dep);
          CloseCycle(nodes, stack, k, dep);
          return Some(stack[k..] + [dep]);
        }
        if dep !in colour {
          DarkerKeys(before, id, colour);
          found := Visit(dep);
          if found.Some? { return; }
        }
        OneMore(before[id := Grey], colour0, colour, Deps(nodes, id), rest, dep);
        rest := rest - {dep};
      }
      AllDone(colour, Deps(nodes, id));
      ghost var grey := colour;
      Leave(id);
      found := None;
      DarkerEnd(before, id, grey);
    }
  }

  ghost predicate AllBlack(colour: map<string, Colour>, ids: set<string>) {
    forall d :: d in ids ==> d in colour && colour[d] == Black
  }

  lemma DarkerStart(before: map<string, Colour>, id: string)
    ensures Darker(before[id := Grey], before[id := Grey])
  {
  }

  lemma DarkerKeys(before: map<string, Colour>, id: string, after: map<string, Colour>)
    requires Darker(before[id := Grey], after)
    ensures before.Keys + {id} <= after.Keys
  {
  }

  lemma DarkerEnd(before: map<string, Colour>, id: string, after: map<string, Colour>)
    requires id !in before && Darker(before[id := Grey], after)
    ensures Darker(before, after[id := Black])
  {
  }

  lemma NoneLeft(colour: map<string, Colour>, ids: set<string>)
    ensures AllBlack(colour, ids - ids)
  {
  }

  lemma OneMore(base: map<string, Colour>, before: map<string, Colour>, after: map<string, Colour>,
                all: set<string>, rest: set<string>, dep: string)
    requires Darker(base, before) && (before == after || Darker(before, after))
    requires AllBlack(before, all - rest) && dep in after && after[dep] == Black
    ensures Darker(base, after) && AllBlack(after, all - (rest - {dep}))
  {
  }

  lemma AllDone(colour: map<string, Colour>, all: set<string>)
    requires AllBlack(colour, all - {})
    ensures forall d :: d in all ==> d in colour && colour[d] == Black
  {
    assert all - {} == all;
  }

  /** Colours are kept; more nodes may have one. */
  ghost predicate Darker(before: map<string, Colour>, after: map<string, Colour>) {
    forall id :: id in before ==> id in after && after[id] == before[id]
  }

  lemma DepsInside(nodes: Nodes, id: string)
    requires Closed(nodes) && id in nodes
    ensures Deps(nodes, id) <= nodes.Keys
  {
  }

  lemma ExtendWalk(nodes: Nodes, w: seq<string>, id: string)
    requires Walk(nodes, w) && id in nodes && (w != [] ==> id in Deps(nodes, w[|w| - 1]))
    ensures Walk(nodes, w + [id])
  {
    var w' := w + [id];
    forall i | 0 <= i < |w'| - 1 ensures w'[i + 1] in Deps(nodes, w'[i]) {
      if i < |w| - 1 { assert w[i + 1] in Deps(nodes, w[i]); }
    }
  }

  lemma CloseCycle(nodes: Nodes, w: seq<string>, k: nat, dep: string)
    requires Walk(nodes, w) && k < |w| && w[k] == dep && dep in Deps(nodes, w[|w| - 1])
    ensures Cycle(nodes, w[k..] + [dep])
  {
    var tail := w[k..];
    assert Walk(nodes, tail) by {
      forall i | 0 <= i < |tail| - 1 ensures tail[i + 1] in Deps(nodes, tail[i]) {
        assert w[k + i + 1] in Deps(nodes, w[k + i]);
      }
    }
    ExtendWalk(nodes, tail, dep);
  }

  lemma FinishNode(nodes: Nodes, order: seq<string>, id: string)
    requires Sequenced(nodes, order) && Distinct(order) && id in nodes && id !in order
    requires forall d :: d in Deps(nodes, id) ==> d in order
    ensures Sequenced(nodes, order + [id]) && Distinct(order + [id])
  {
    var order' := order + [id];
    forall i | 0 <= i < |order'|
      ensures order'[i] in nodes && forall d :: d in Deps(nodes, order'[i]) ==> d in order'[..i]
    {
      assert order'[..i] == order[..i];
      if i == |order| { assert order[..i] == order; }
    }
  }

  method IndexIn(s: seq<string>, x: string) returns (k: nat)
    requires x in s
    ensures k < |s| && s[k] == x
  {
    k := 0;
    while s[k] != x
      invariant k < |s| && x !in s[..k]
      decreases |s| - k
    {
      k := k + 1;
    }
  }

  lemma CycleNotAcyclic(nodes: Nodes, c: seq<string>)
    requires Cycle(nodes, c)
    ensures !Acyclic(nodes)
  {
  }

  /** None exactly for an acyclic graph, and otherwise a genuine cycle. */
  method FindCycle(nodes: Nodes) returns (found: Option<seq<string>>)
    requires Closed(nodes)
    ensures found.None? <==> Acyclic(nodes)
    ensures found.Some? ==> Cycle(nodes, found.value)
  {
    hide Walk, Sequenced, Deps, Distinct, Cycle, Closed;
    var finder := new CycleFinder(nodes);
    var rest := nodes.Keys;
    while rest != {}
      invariant finder.Valid() && finder.nodes == nodes && finder.stack == [] && rest <= nodes.Keys
      invariant forall id :: id in nodes && id !in rest ==> id in finder.colour && finder.colour[id] == Black
      decreases |rest|
    {
      var id :| id in rest;
      if id !in finder.colour {
        found := finder.Visit(id);
        if found.Some? {
          CycleNotAcyclic(nodes, found.value);
          return;
        }
      }
      assert finder.colour[id] == Black by { assert id !in finder.stack; }
      rest := rest - {id};
    }
    SequencedAcyclic(nodes, finder.finished);
    return None;
  }

  // --------------------------------------------------------------------
  // order

  lemma {:induction false} DistinctCount(s: seq<string>, within: set<string>)
    requires Distinct(s) && forall x :: x in s ==> x in within
    ensures |s| <= |within|
  {
    if s != [] {
      var rest, last := s[..|s| - 1], s[|s| - 1];
      assert last !in rest;
      DistinctCount(rest, within - {last});
    }
  }

  /** Walking on inside a set where every node has a dependency must come round. */
  lemma {:induction false} WalkOn(nodes: Nodes, inside: set<string>, w: seq<string>)
    requires Walk(nodes, w) && Distinct(w) && w != [] && forall x :: x in w ==> x in inside
    requires inside <= nodes.Keys && forall id :: id in inside ==> Deps(nodes, id) * inside != {}
    ensures !Acyclic(nodes)
    decreases |inside| - |w|
  {
    hide Walk, Deps, Acyclic;
    var last := w[|w| - 1];
    assert last in w;
    var dep :| dep in Deps(nodes, last) * inside;
    if dep in w {
      var k :| 0 <= k < |w| && w[k] == dep;
      CloseCycle(nodes, w, k, dep);
      CycleNotAcyclic(nodes, w[k..] + [dep]);
    } else {
      ExtendWalk(nodes, w, dep);
      DistinctCount(w + [dep], inside);
      WalkOn(nodes, inside, w + [dep]);
    }
  }

  /** In an acyclic graph every non-empty part has a node that needs nothing in it. */
  lemma HasSource(nodes: Nodes, part: set<string>)
    requires Acyclic(nodes) && part <= nodes.Keys && part != {}
    ensures exists id :: id in part && Deps(nodes, id) * part == {}
  {
    hide Deps, Acyclic;
    if forall id :: id in part ==> Deps(nodes, id) * part != {} {
      var id :| id in part;
      assert Walk(nodes, [id]);
      WalkOn(nodes, part, [id]);
    }
  }

  ghost function Flatten(layers: seq<seq<string>>): seq<string> {
    if layers == [] then [] else Flatten(layers[..|layers| - 1]) + layers[|layers| - 1]
  }

  /** Each layer is in order of ids, and a node is in the first layer that comes after all it
      depends on. */
  ghost predicate Layered(nodes: Nodes, layers: seq<seq<string>>) {
    forall k :: 0 <= k < |layers| ==> IsLayer(nodes, layers, k)
  }

  ghost predicate IsLayer(nodes: Nodes, layers: seq<seq<string>>, k: nat)
    requires k < |layers|
  {
    && StringOrder.Ascending(layers[k])
    && (forall id :: id in layers[k] ==> id in nodes && Deps(nodes, id) <= (set d | d in Flatten(layers[..k])))
    && (k > 0 ==> forall id :: id in layers[k] ==> Follows(nodes, id, layers[k - 1]))
  }

  /** The node depends on one of these. */
  ghost predicate Follows(nodes: Nodes, id: string, last: seq<string>) {
    id in nodes && exists d :: d in Deps(nodes, id) && d in last
  }

  lemma NextLayer(nodes: Nodes, layers: seq<seq<string>>, layer: seq<string>)
    requires Layered(nodes, layers) && IsLayer(nodes, layers + [layer], |layers|)
    ensures Layered(nodes, layers + [layer]) && Flatten(layers + [layer]) == Flatten(layers) + layer
  {
    var all := layers + [layer];
    assert all[..|layers|] == layers;
    forall k | 0 <= k < |all| ensures IsLayer(nodes, all, k) {
      if k < |layers| {
        assert IsLayer(nodes, layers, k);
        assert all[..k] == layers[..k];
      }
    }
  }

  /** Layer by layer, each layer by id. For an acyclic graph this ends, with each node once and
      after everything it depends on, in the first layer it can be in. */
  method Order(nodes: Nodes) returns (order: seq<string>, ghost layers: seq<seq<string>>)
    requires Closed(nodes) && Acyclic(nodes)
    ensures Sequenced(nodes, order) && Distinct(order)
    ensures forall id :: id in order <==> id in nodes
    ensures order == Flatten(layers) && Layered(nodes, layers)
  {
    hide Deps, Acyclic, Layered, IsLayer, Flatten, Sequenced, Distinct, Closed, Pending, IsReady;
    order, layers := [], [];
    var remaining := nodes.Keys;
    NothingOrdered(nodes, remaining);
    while remaining != {}
      invariant remaining <= nodes.Keys && Sequenced(nodes, order) && Distinct(order)
      invariant forall id :: id in order <==> id in nodes && id !in remaining
      invariant order == Flatten(layers) && Layered(nodes, layers) && Pending(nodes, layers, remaining)
      decreases |remaining|
    {
      HasSource(nodes, remaining);
      var ready := set id | id in remaining && Deps(nodes, id) * remaining == {};
      var layer := StringOrder.SortSet(ready);
      AppendLayer(nodes, order, layer, remaining);
      ReadyNow(nodes, remaining, ready);
      LayerFits(nodes, layers, order, remaining, ready);
      StillPending(nodes, layers, remaining, ready);
      NextLayer(nodes, layers, layer);
      order, remaining, layers := order + layer, remaining - ready, layers + [layer];
    }
  }

  /** Everything left depends on what is left or on the last layer. */
  ghost predicate Pending(nodes: Nodes, layers: seq<seq<string>>, remaining: set<string>) {
    layers != [] ==> forall id :: id in remaining ==> Needs(nodes, id, remaining, layers[|layers| - 1])
  }

  ghost predicate Needs(nodes: Nodes, id: string, remaining: set<string>, last: seq<string>) {
    id in nodes && exists d :: d in Deps(nodes, id) && (d in remaining || d in last)
  }

  ghost predicate IsReady(nodes: Nodes, remaining: set<string>, ready: set<string>) {
    forall id :: id in ready <==> id in remaining && id in nodes && Deps(nodes, id) * remaining == {}
  }

  lemma ReadyNow(nodes: Nodes, remaining: set<string>, ready: set<string>)
    requires remaining <= nodes.Keys && ready == set id | id in remaining && Deps(nodes, id) * remaining == {}
    ensures IsReady(nodes, remaining, ready)
  {
    hide Deps;
  }

  lemma NothingOrdered(nodes: Nodes, remaining: set<string>)
    ensures Layered(nodes, []) && Flatten([]) == [] && Pending(nodes, [], remaining)
    ensures Sequenced(nodes, []) && Distinct([])
  {
  }

  lemma LayerFits(nodes: Nodes, layers: seq<seq<string>>, order: seq<string>, remaining: set<string>,
                  ready: set<string>)
    requires Closed(nodes) && IsReady(nodes, remaining, ready) && Pending(nodes, layers, remaining)
    requires order == Flatten(layers) && forall id :: id in order <==> id in nodes && id !in remaining
    ensures IsLayer(nodes, layers + [StringOrder.Sorted(ready)], |layers|)
  {
    hide Deps, Flatten, Closed, Needs, StringOrder.Sorted, IsReady;
    var layer := StringOrder.Sorted(ready);
    var all := layers + [layer];
    assert all[..|layers|] == layers && all[|layers|] == layer;
    forall id | id in layer ensures id in nodes && Deps(nodes, id) <= (set d | d in Flatten(layers)) {
      ReadyBelow(nodes, order, remaining, ready, id);
    }
    if layers != [] {
      assert all[|layers| - 1] == layers[|layers| - 1];
      forall id | id in layer ensures Follows(nodes, id, layers[|layers| - 1]) {
        ReadyAfter(nodes, layers[|layers| - 1], remaining, ready, id);
      }
    }
  }

  lemma ReadyBelow(nodes: Nodes, order: seq<string>, remaining: set<string>, ready: set<string>, id: string)
    requires Closed(nodes) && IsReady(nodes, remaining, ready) && id in ready
    requires forall d :: d in order <==> d in nodes && d !in remaining
    ensures id in nodes && Deps(nodes, id) <= set d | d in order
  {
    hide Deps;
    forall d | d in Deps(nodes, id) ensures d in order {
      assert d !in Deps(nodes, id) * remaining;
    }
  }

  lemma ReadyAfter(nodes: Nodes, last: seq<string>, remaining: set<string>, ready: set<string>, id: string)
    requires IsReady(nodes, remaining, ready) && id in ready && (id in remaining ==> Needs(nodes, id, remaining, last))
    ensures Follows(nodes, id, last)
  {
    hide Deps;
    var d :| d in Deps(nodes, id) && (d in remaining || d in last);
    assert d !in Deps(nodes, id) * remaining;
  }

  lemma StillPending(nodes: Nodes, layers: seq<seq<string>>, remaining: set<string>, ready: set<string>)
    requires remaining <= nodes.Keys && IsReady(nodes, remaining, ready)
    ensures Pending(nodes, layers + [StringOrder.Sorted(ready)], remaining - ready)
  {
    hide Deps, StringOrder.Sorted;
    forall id | id in remaining - ready ensures Needs(nodes, id, remaining - ready, StringOrder.Sorted(ready)) {
      var d :| d in Deps(nodes, id) * remaining;
    }
  }

  lemma AppendLayer(nodes: Nodes, order: seq<string>, layer: seq<string>, remaining: set<string>)
    requires Closed(nodes) && Sequenced(nodes, order) && Distinct(order) && StringOrder.Ascending(layer)
    requires forall id :: id in order <==> id in nodes && id !in remaining
    requires forall id :: id in layer ==> id in nodes && id in remaining && Deps(nodes, id) * remaining == {}
    ensures Sequenced(nodes, order + layer) && Distinct(order + layer)
  {
    hide Deps;
    var all := order + layer;
    forall i | 0 <= i < |all|
      ensures all[i] in nodes && forall d :: d in Deps(nodes, all[i]) ==> d in all[..i]
    {
      if i < |order| {
        assert all[..i] == order[..i];
      } else {
        assert all[i] == layer[i - |order|] && all[i] in layer;
        DepsInside(nodes, all[i]);
        forall d | d in Deps(nodes, all[i]) ensures d in all[..i] {
          assert d !in Deps(nodes, all[i]) * remaining;
          assert order <= all[..i];
        }
      }
    }
    forall i, j | 0 <= i < j < |all| ensures all[i] != all[j] {
      if i >= |order| {
        StringOrder.LessAsymmetric(layer[i - |order|], layer[j - |order|]);
      } else if j >= |order| {
        assert all[j] in layer && all[i] in order;
      }
    }
  }

  // --------------------------------------------------------------------
  // _validated_upstream

  function SuccessDeps(nodes: Nodes, id: string): set<string>
    requires id in nodes
  {
    set d | d in Edges(nodes[id]) && Edges(nodes[id])[d]
  }

  lemma SuccessDepsMean(nodes: Nodes, id: string, d: string)
    requires id in nodes
    ensures d in SuccessDeps(nodes, id) <==> MustSucceed(nodes[id], d)
  {
    hide Edges, MustSucceed, MustEnd;
    EdgesMean(nodes[id], d);
  }

  /** A walk of success edges only, one or more of them. */
  ghost predicate SuccessWalk(nodes: Nodes, w: seq<string>) {
    && |w| >= 2 && (forall i :: 0 <= i < |w| ==> w[i] in nodes)
    && forall i :: 0 <= i < |w| - 1 ==> MustSucceed(nodes[w[i]], w[i + 1])
  }

  ghost predicate Upstream(nodes: Nodes, from: string, to: string) {
    exists w :: SuccessWalk(nodes, w) && w[0] == from && w[|w| - 1] == to
  }

  lemma UpstreamDirect(nodes: Nodes, from: string, d: string)
    requires Closed(nodes) && from in nodes && d in SuccessDeps(nodes, from)
    ensures Upstream(nodes, from, d) && d in nodes
  {
    hide Edges, MustSucceed;
    SuccessDepsMean(nodes, from, d);
    assert d in Deps(nodes, from);
    assert SuccessWalk(nodes, [from, d]);
  }

  lemma UpstreamFurther(nodes: Nodes, from: string, mid: string, d: string)
    requires Closed(nodes) && Upstream(nodes, from, mid) && mid in nodes && d in SuccessDeps(nodes, mid)
    ensures Upstream(nodes, from, d) && d in nodes
  {
    hide Edges, MustSucceed;
    SuccessDepsMean(nodes, mid, d);
    assert d in Deps(nodes, mid);
    var w :| SuccessWalk(nodes, w) && w[0] == from && w[|w| - 1] == mid;
    var w' := w + [d];
    forall i | 0 <= i < |w'| - 1 ensures MustSucceed(nodes[w'[i]], w'[i + 1]) {
      if i < |w| - 1 { assert MustSucceed(nodes[w[i]], w[i + 1]); }
    }
    assert SuccessWalk(nodes, w');
  }

  /** A set closed over success edges that has the first step of a walk has its end. */
  lemma {:induction false} ClosedSetHoldsWalk(nodes: Nodes, seen: set<string>, w: seq<string>)
    requires SuccessWalk(nodes, w) && w[1] in seen
    requires forall x :: x in seen && x in nodes ==> SuccessDeps(nodes, x) <= seen
    ensures w[|w| - 1] in seen
    decreases |w|
  {
    hide SuccessDeps, MustSucceed;
    if |w| > 2 {
      assert MustSucceed(nodes[w[1]], w[1 + 1]);
      SuccessDepsMean(nodes, w[1], w[2]);
      assert SuccessWalk(nodes, w[1..]) by {
        forall i | 0 <= i < |w[1..]| - 1 ensures MustSucceed(nodes[w[1..][i]], w[1..][i + 1]) {
          assert MustSucceed(nodes[w[i + 1]], w[i + 1 + 1]);
        }
      }
      ClosedSetHoldsWalk(nodes, seen, w[1..]);
    }
  }

  /** A validate node lies upstream along success edges. */
  method ValidatedUpstream(id: string, nodes: Nodes) returns (found: bool)
    requires Closed(nodes) && id in nodes
    ensures found <==> exists v :: v in nodes && nodes[v].kind == Validate && Upstream(nodes, id, v)
  {
    hide SuccessDeps, Upstream, Closed, Edges;
    var seen: set<string> := {};
    var todo := SuccessDeps(nodes, id);
    forall d | d in todo ensures Upstream(nodes, id, d) && d in nodes { UpstreamDirect(nodes, id, d); }
    while todo != {}
      invariant forall d :: d in todo + seen ==> Upstream(nodes, id, d) && d in nodes
      invariant SuccessDeps(nodes, id) <= seen + todo
      invariant forall x :: x in seen ==>
        x in nodes && nodes[x].kind != Validate && SuccessDeps(nodes, x) <= seen + todo
      decreases nodes.Keys - seen, todo
    {
      var current :| current in todo;
      todo := todo - {current};
      if current !in seen {
        seen := seen + {current};
        if nodes[current].kind == Validate { return true; }
        forall d | d in SuccessDeps(nodes, current) ensures Upstream(nodes, id, d) && d in nodes {
          UpstreamFurther(nodes, id, current, d);
        }
        todo := todo + SuccessDeps(nodes, current);
      }
    }
    forall v | v in nodes && Upstream(nodes, id, v) ensures v in seen { HeldBySeen(nodes, seen, id, v); }
    found := false;
  }

  lemma HeldBySeen(nodes: Nodes, seen: set<string>, id: string, v: string)
    requires Upstream(nodes, id, v) && id in nodes && SuccessDeps(nodes, id) <= seen
    requires forall x :: x in seen && x in nodes ==> SuccessDeps(nodes, x) <= seen
    ensures v in seen
  {
    hide SuccessDeps, MustSucceed;
    var w :| SuccessWalk(nodes, w) && w[0] == id && w[|w| - 1] == v;
    assert MustSucceed(nodes[w[0]], w[0 + 1]);
    SuccessDepsMean(nodes, id, w[1]);
    ClosedSetHoldsWalk(nodes, seen, w);
  }
}
