/** `StateDiagram.flatten_graph` as a specification over values: each
    superstate of a scope is replaced by the flattened graph of its own
    diagram, wired to the superstate's incoming and outgoing neighbours. */
module Flattening {
  import opened Base
  import opened States

  /** A networkx `DiGraph` reduced to what flattening uses: no parallel
      edges, and adding an edge adds its endpoints. */
  datatype Graph = Graph(nodes: set<Name>, edges: set<Edge>)

  function Ends(es: set<Edge>): set<Name> {
    (set e | e in es :: e.0) + (set e | e in es :: e.1)
  }

  /** `add_edges_from`: the edges, and their endpoints as nodes. */
  function AddEdges(g: Graph, es: set<Edge>): Graph {
    Graph(g.nodes + Ends(es), g.edges + es)
  }

  /** `remove_node`: the node and every edge touching it. */
  function RemoveNode(g: Graph, n: Name): Graph {
    Graph(g.nodes - {n}, set e | e in g.edges && e.0 != n && e.1 != n)
  }

  /** `subgraph(top_level)`: a new graph on the top-level states, with the
      edges of the scope between them. */
  function Induced(sc: Scope): (g: Graph)
    ensures forall n :: n in g.nodes <==> n in sc.topLevel && n in sc.nodes
    ensures forall e :: e in g.edges <==> e in sc.edges && e.0 in g.nodes && e.1 in g.nodes
  {
    var ns := set n | n in sc.topLevel && n in sc.nodes;
    Graph(ns, set e | e in sc.edges && e.0 in ns && e.1 in ns)
  }

  /** Edges from each incoming neighbour of superstate `b` to each start
      state of its flattened diagram. */
  function Entries(states: map<Name, State>, b: Name, child: Graph): set<Edge>
    requires b in states
  {
    set src, s | src in states[b].source && s in child.nodes && s in states
                 && states[s].IsStartState() :: (src, s)
  }

  /** Edges from each end state of the flattened diagram of superstate `b`
      to each outgoing neighbour of `b`. */
  function Exits(states: map<Name, State>, b: Name, child: Graph): set<Edge>
    requires b in states
  {
    set s, d | s in child.nodes && d in states[b].destination && s in states
               && states[s].IsEndState() :: (s, d)
  }

  /** One iteration of the loop of `flatten_graph` for superstate `b`
      whose diagram flattens to `child`. */
  function Collapse(g: Graph, b: Name, child: Graph, states: map<Name, State>): Graph
    requires b in states
  {
    RemoveNode(AddEdges(g, Entries(states, b, child) + Exits(states, b, child) + child.edges), b)
  }

  /** Registration indexes: one per registered state, below the count. */
  ghost predicate Indexed(states: map<Name, State>, order: map<Name, nat>) {
    && order.Keys == states.Keys
    && forall n :: n in order ==> order[n] < |states|
  }

  /** Each owned diagram lists its states once, as graph nodes, all
      registered after their superstate. */
  ghost predicate ChildrenLater(states: map<Name, State>, order: map<Name, nat>)
    requires order.Keys == states.Keys
  {
    && (forall x :: x in states ==> NoDuplicates(states[x].substates.topLevel))
    && (forall x, c :: x in states && c in states[x].substates.topLevel ==>
          c in states && c in states[x].substates.nodes && order[x] < order[c])
  }

  /** The nesting of a registry of states forms a tree: every state
      declared inside a superstate was registered after it (`order` is the
      registration index). */
  ghost predicate Nested(states: map<Name, State>, order: map<Name, nat>) {
    Indexed(states, order) && ChildrenLater(states, order)
  }

  /** What `flatten_graph` may be called on: a scope whose top-level states
      are registered graph nodes, listed once, and registered no earlier
      than `lo`. */
  ghost predicate Flattenable(states: map<Name, State>, order: map<Name, nat>, sc: Scope, lo: nat) {
    && Nested(states, order)
    && lo <= |states|
    && NoDuplicates(sc.topLevel)
    && forall c :: c in sc.topLevel ==> c in states && c in sc.nodes && lo <= order[c]
  }

  /** The diagram owned by a registered state can itself be flattened. */
  lemma SubstatesFlattenable(states: map<Name, State>, order: map<Name, nat>, b: Name)
    requires Nested(states, order) && b in states
    ensures Flattenable(states, order, states[b].substates, order[b] + 1)
  {
  }

  /** `flatten_graph` on the diagram `sc`, visiting its top-level states
      in declaration order. */
  ghost function FlattenScope(states: map<Name, State>, order: map<Name, nat>, sc: Scope, lo: nat): Graph
    requires Flattenable(states, order, sc, lo)
    decreases |states| + 1 - lo, 1, 0
  {
    Fold(states, order, Induced(sc), sc.topLevel, lo)
  }

  /** The loop of `flatten_graph` over the states `ts` still to visit. */
  ghost function Fold(states: map<Name, State>, order: map<Name, nat>, g: Graph, ts: seq<Name>, lo: nat): Graph
    requires Nested(states, order) && lo <= |states|
    requires forall c :: c in ts ==> c in states && lo <= order[c]
    decreases |states| + 1 - lo, 0, |ts|
  {
    if ts == [] then g
    else Fold(states, order, Visit(states, order, g, ts[0]), ts[1..], lo)
  }

  /** One pass of the loop body: a superstate is collapsed into the
      flattened graph of its own diagram, any other state is left alone. */
  ghost function Visit(states: map<Name, State>, order: map<Name, nat>, g: Graph, b: Name): Graph
    requires Nested(states, order) && b in states
    decreases |states| - order[b], 2, 0
  {
    if states[b].numSubstates > 0
    then Collapse(g, b, FlattenScope(states, order, states[b].substates, order[b] + 1), states)
    else g
  }

  /** Every edge joins two nodes of the graph. */
  predicate WellFormed(g: Graph) {
    forall e :: e in g.edges ==> e.0 in g.nodes && e.1 in g.nodes
  }

  /** A collapse keeps the graph proper. */
  lemma CollapseWellFormed(g: Graph, b: Name, child: Graph, states: map<Name, State>)
    requires b in states && WellFormed(g)
    ensures WellFormed(Collapse(g, b, child, states))
  {
    var es := Entries(states, b, child) + Exits(states, b, child) + child.edges;
    var r := Collapse(g, b, child, states);
    forall e | e in r.edges ensures e.0 in r.nodes && e.1 in r.nodes {
      assert e in g.edges + es;
      if e in es {
        assert e.0 in Ends(es) && e.1 in Ends(es);
      }
    }
  }

  /** One collapse removes the superstate and wires its neighbours to the
      inside: every incoming neighbour reaches every start state of the
      flattened diagram, every end state reaches every outgoing neighbour,
      the flattened diagram's edges and the graph's other edges are kept,
      and no other edge or node appears. */
  lemma CollapseWiresEntriesAndExits(g: Graph, b: Name, child: Graph, states: map<Name, State>)
    requires b in states && WellFormed(g) && WellFormed(child)
    ensures var r := Collapse(g, b, child, states);
      && WellFormed(r)
      && b !in r.nodes
      && (forall e :: e in r.edges ==> e.0 != b && e.1 != b)
      && (forall src, s ::
            (src in states[b].source && s in child.nodes && s in states
             && states[s].IsStartState() && src != b && s != b) ==> (src, s) in r.edges)
      && (forall s, d ::
            (s in child.nodes && d in states[b].destination && s in states
             && states[s].IsEndState() && s != b && d != b) ==> (s, d) in r.edges)
      && (forall e :: e in child.edges && e.0 != b && e.1 != b ==> e in r.edges)
      && (forall e :: e in g.edges && e.0 != b && e.1 != b ==> e in r.edges)
      && (forall e :: e in r.edges ==>
            e in g.edges || e in child.edges
            || (e.0 in states[b].source && e.1 in child.nodes && e.1 in states && states[e.1].IsStartState())
            || (e.0 in child.nodes && e.1 in states[b].destination && e.0 in states && states[e.0].IsEndState()))
      && (forall n :: n in r.nodes ==>
            n in g.nodes || n in child.nodes || n in states[b].source || n in states[b].destination)
      && (forall n :: n in g.nodes && n != b ==> n in r.nodes)
  {
    var es := Entries(states, b, child) + Exits(states, b, child) + child.edges;
    var r := Collapse(g, b, child, states);
    CollapseWellFormed(g, b, child, states);
    forall n | n in r.nodes && n !in g.nodes
      ensures n in child.nodes || n in states[b].source || n in states[b].destination
    {
      assert n in Ends(es);
      var e :| e in es && (e.0 == n || e.1 == n);
    }
  }

  /** Flattening yields a proper graph: every edge joins two of its nodes. */
  lemma {:induction false} FlattenWellFormed(states: map<Name, State>, order: map<Name, nat>, sc: Scope, lo: nat)
    requires Flattenable(states, order, sc, lo)
    ensures WellFormed(FlattenScope(states, order, sc, lo))
    decreases |states| + 1 - lo, 1, 0
  {
    FoldWellFormed(states, order, Induced(sc), sc.topLevel, lo);
  }

  lemma {:induction false} FoldWellFormed(states: map<Name, State>, order: map<Name, nat>, g: Graph, ts: seq<Name>, lo: nat)
    requires Nested(states, order) && lo <= |states| && WellFormed(g)
    requires forall c :: c in ts ==> c in states && lo <= order[c]
    ensures WellFormed(Fold(states, order, g, ts, lo))
    decreases |states| + 1 - lo, 0, |ts|
  {
    if ts != [] {
      var b := ts[0];
      if states[b].numSubstates > 0 {
        SubstatesFlattenable(states, order, b);
        FlattenWellFormed(states, order, states[b].substates, order[b] + 1);
        CollapseWellFormed(g, b, FlattenScope(states, order, states[b].substates, order[b] + 1), states);
      }
      FoldWellFormed(states, order, Visit(states, order, g, b), ts[1..], lo);
    }
  }

  /** Recursion ends at plain states: a scope without superstates flattens
      to the graph induced on its top-level states. */
  lemma {:induction false} FlattenPlainScope(states: map<Name, State>, order: map<Name, nat>, sc: Scope, lo: nat)
    requires Flattenable(states, order, sc, lo)
    requires forall c :: c in sc.topLevel ==> states[c].numSubstates == 0
    ensures FlattenScope(states, order, sc, lo) == Induced(sc)
  {
    FoldPlain(states, order, Induced(sc), sc.topLevel, lo);
  }

  lemma {:induction false} FoldPlain(states: map<Name, State>, order: map<Name, nat>, g: Graph, ts: seq<Name>, lo: nat)
    requires Nested(states, order) && lo <= |states|
    requires forall c :: c in ts ==> c in states && lo <= order[c] && states[c].numSubstates == 0
    ensures Fold(states, order, g, ts, lo) == g
    decreases |ts|
  {
    if ts != [] {
      FoldPlain(states, order, g, ts[1..], lo);
    }
  }

  /** The diagram of `Idle --> Active`, `Active --> [*]`, where superstate
      `Active` holds the single state `Running`. */
  const ExampleInner := Scope({"Running"}, {}, ["Running"])
  const ExampleStates: map<Name, State> := map[
    "Idle" := State("Idle", [], None, EmptyScope, 0, [], ["Active"], false),
    "Active" := State("Active", [], None, ExampleInner, 1, ["Idle"], ["END"], false),
    "Running" := State("Running", [], Some("Active"), EmptyScope, 0, [], [], false),
    "END" := State("END", [], None, EmptyScope, 0, ["Active"], [], false)]
  const ExampleOrder: map<Name, nat> := map["Idle" := 0, "Active" := 1, "Running" := 2, "END" := 3]
  const ExampleRoot := Scope({"Idle", "Active", "END"}, {("Idle", "Active"), ("Active", "END")}, ["Idle", "Active", "END"])

  lemma ExampleIndexed()
    ensures Indexed(ExampleStates, ExampleOrder)
  {
    assert ExampleStates.Keys == {"Idle", "Active", "Running", "END"};
  }

  lemma ExampleChildrenLater()
    ensures ExampleOrder.Keys == ExampleStates.Keys
    ensures ChildrenLater(ExampleStates, ExampleOrder)
  {
    var states, order := ExampleStates, ExampleOrder;
    forall x | x in states
      ensures states[x].substates.topLevel == if x == "Active" then ["Running"] else []
    {
    }
  }

  lemma ExampleNested()
    ensures Nested(ExampleStates, ExampleOrder)
  {
    ExampleIndexed();
    ExampleChildrenLater();
  }

  lemma ExampleInnerFlattenable()
    ensures Flattenable(ExampleStates, ExampleOrder, ExampleInner, 2)
  {
    ExampleNested();
    SubstatesFlattenable(ExampleStates, ExampleOrder, "Active");
    assert ExampleStates["Active"].substates == ExampleInner;
  }

  /** The inside of `Active` flattens to the lone node `Running`. */
  lemma ExampleInside()
    ensures Flattenable(ExampleStates, ExampleOrder, ExampleInner, 2)
    ensures FlattenScope(ExampleStates, ExampleOrder, ExampleInner, 2) == Graph({"Running"}, {})
  {
    ExampleInnerFlattenable();
    assert ExampleStates["Running"].numSubstates == 0;
    FlattenPlainScope(ExampleStates, ExampleOrder, ExampleInner, 2);
    assert Induced(ExampleInner).nodes == {"Running"};
  }

  /** `Running` is entered from `Idle` and left towards `END`. */
  lemma ExampleEntriesExits()
    ensures Entries(ExampleStates, "Active", Graph({"Running"}, {})) == {("Idle", "Running")}
    ensures Exits(ExampleStates, "Active", Graph({"Running"}, {})) == {("Running", "END")}
  {
    var states := ExampleStates;
    assert states["Active"].source == ["Idle"] && states["Active"].destination == ["END"];
    assert states["Running"].IsStartState() && states["Running"].IsEndState();
  }

  /** Collapsing `Active` into `Running`. */
  lemma ExampleCollapse()
    ensures Collapse(Induced(ExampleRoot), "Active", Graph({"Running"}, {}), ExampleStates) == ExampleFlat
  {
    ExampleRootGraph();
    ExampleEntriesExits();
    ExampleRewire();
  }

  /** The root graph is the example's three top-level states and its two
      edges. */
  lemma ExampleRootGraph()
    ensures Induced(ExampleRoot) == Graph({"Idle", "Active", "END"}, {("Idle", "Active"), ("Active", "END")})
  {
    var g0 := Induced(ExampleRoot);
    assert g0.nodes == {"Idle", "Active", "END"};
    assert g0.edges == {("Idle", "Active"), ("Active", "END")};
  }

  lemma ExampleRewire()
    ensures var es := {("Idle", "Running"), ("Running", "END")};
      RemoveNode(AddEdges(Graph({"Idle", "Active", "END"}, {("Idle", "Active"), ("Active", "END")}), es), "Active")
      == Graph({"Idle", "Running", "END"}, es)
  {
    var es := {("Idle", "Running"), ("Running", "END")};
    assert Ends(es) == {"Idle", "Running", "END"};
    var g1 := AddEdges(Graph({"Idle", "Active", "END"}, {("Idle", "Active"), ("Active", "END")}), es);
    assert g1.edges == {("Idle", "Active"), ("Active", "END"), ("Idle", "Running"), ("Running", "END")};
    assert RemoveNode(g1, "Active").edges == es;
  }

  lemma ExampleRootFlattenable()
    ensures Flattenable(ExampleStates, ExampleOrder, ExampleRoot, 0)
  {
    ExampleNested();
    ExampleIndexed();
    Three("Idle", "Active", "END");
  }

  /** Membership in, and distinctness of, a list of three names. */
  lemma Three(a: Name, b: Name, c: Name)
    requires a != b && a != c && b != c
    ensures forall x :: x in [a, b, c] <==> x == a || x == b || x == c
    ensures NoDuplicates([a, b, c])
  {
  }

  /** Visiting `Active` collapses it into the flattened inside. */
  lemma ExampleVisitActive()
    ensures Nested(ExampleStates, ExampleOrder) && "Active" in ExampleStates
    ensures Visit(ExampleStates, ExampleOrder, Induced(ExampleRoot), "Active") == ExampleFlat
  {
    ExampleNested();
    ExampleInside();
    ExampleCollapse();
    assert ExampleStates["Active"].substates == ExampleInner;
  }

  /** Visiting a plain state leaves the graph alone. */
  lemma ExampleVisitPlain(g: Graph, b: Name)
    requires b == "Idle" || b == "END"
    ensures Nested(ExampleStates, ExampleOrder) && b in ExampleStates
    ensures Visit(ExampleStates, ExampleOrder, g, b) == g
  {
    ExampleNested();
    assert ExampleStates[b].numSubstates == 0;
  }

  /** The expected flat graph: `Idle --> Running --> END`. */
  const ExampleFlat := Graph({"Idle", "Running", "END"}, {("Idle", "Running"), ("Running", "END")})

  /** The last two passes of the loop: `Active` is collapsed, `END` left. */
  lemma ExampleFoldTail()
    ensures Nested(ExampleStates, ExampleOrder) && 0 <= |ExampleStates|
    ensures forall c :: c in ["Active", "END"] ==> c in ExampleStates && 0 <= ExampleOrder[c]
    ensures Fold(ExampleStates, ExampleOrder, Induced(ExampleRoot), ["Active", "END"], 0) == ExampleFlat
  {
    ExampleIndexed();
    ExampleVisitActive();
    ExampleVisitPlain(ExampleFlat, "END");
    var ts: seq<Name> := ["Active", "END"];
    var g0 := Induced(ExampleRoot);
    assert ts[0] == "Active" && ts[1..] == ["END"];
    assert Fold(ExampleStates, ExampleOrder, ExampleFlat, ["END"], 0) == ExampleFlat by {
      assert ["END"][1..] == [];
    }
    assert Fold(ExampleStates, ExampleOrder, g0, ts, 0)
        == Fold(ExampleStates, ExampleOrder, Visit(ExampleStates, ExampleOrder, g0, "Active"), ["END"], 0);
  }

  /** Flattening the example removes `Active` and routes `Idle` through
      `Running` to `END`: `Running` is both the start and the end state of
      the inside of `Active`. */
  lemma ExampleFlattens()
    ensures Flattenable(ExampleStates, ExampleOrder, ExampleRoot, 0)
    ensures FlattenScope(ExampleStates, ExampleOrder, ExampleRoot, 0) == ExampleFlat
  {
    ExampleRootFlattenable();
    ExampleFoldTail();
    ExampleVisitPlain(Induced(ExampleRoot), "Idle");
    assert ExampleRoot.topLevel[1..] == ["Active", "END"];
  }
}
