/** `StateDiagram` of tools/StateModel.py: the root diagram, which
    registers every state by name, keeps the top-level list, every
    transition and its own graph, and mutates States in place. A State
    object is reached through its name, so an in-place update of a State is
    an update of its entry in `stateNames`. */
module StateModel {
  import opened Base
  import opened States
  import opened Flattening

  /** An argument that is either a State object (known by its name) or a
      state name string. */
  datatype StateId = Obj(name: Name) | Named(name: Name)

  /** Python truthiness of an optional state argument: a State object is
      always true, a name only when it is not empty. */
  predicate IdTruthy(o: Option<StateId>) {
    o.Some? && (o.value.Obj? || o.value.name != "")
  }

  /** The start/end marker of PlantUML. */
  const Marker: Name := "[*]"

  /** `[*]` as a transition source is the shared `START` state. */
  function SourceName(s: Name): (r: Name)
    ensures s == Marker ==> r == "START"
    ensures s != Marker ==> r == s
  {
    if s == Marker then "START" else s
  }

  /** `[*]` as a transition destination is the shared `END` state. */
  function DestName(s: Name): (r: Name)
    ensures s == Marker ==> r == "END"
    ensures s != Marker ==> r == s
  {
    if s == Marker then "END" else s
  }

  /** The attribute handed to `add_state`, appended when truthy. */
  function WithAttr(s: State, attrs: Option<string>): State {
    if Truthy(attrs) then s.AddAttribute(attrs.value) else s
  }

  /** The registry `m` after the new state `n` was registered with the
      parent `p` and appended to the diagram of `p`. */
  function Attached(m: map<Name, State>, n: Name, p: Name): map<Name, State> {
    var m1 := m[n := NewState(n, Some(p))];
    if p in m1 then m1[p := m1[p].AddSubstate(n)] else m1
  }

  /** `add_state` raises NameError: the name is new and its truthy parent
      is neither registered nor the name itself. */
  predicate DeclareFails(m: map<Name, State>, name: Name, parent: Option<Name>) {
    name !in m && Truthy(parent) && parent.value != name && parent.value !in m
  }

  /** The registry after the new state `name` was registered and placed:
      at the root without a truthy parent, else in the parent's diagram. */
  function Created(m: map<Name, State>, name: Name, parent: Option<Name>): map<Name, State> {
    if Truthy(parent) then Attached(m, name, parent.value) else m[name := NewState(name, parent)]
  }

  /** The registry after a successful `add_state(name, parent, attrs)`:
      a new name is created first, then the attribute lands on the state
      registered under `name`. */
  function Declared(m: map<Name, State>, name: Name, parent: Option<Name>, attrs: Option<string>): map<Name, State> {
    var m1 := if name in m then m else Created(m, name, parent);
    m1[name := WithAttr(m1[name], attrs)]
  }

  /** For a new name, the attribute lands on the freshly created state. */
  lemma DeclaredNew(m: map<Name, State>, name: Name, parent: Option<Name>, attrs: Option<string>)
    requires name !in m
    ensures name in Created(m, name, parent)
    ensures var c := Created(m, name, parent);
      Declared(m, name, parent, attrs) == if Truthy(attrs) then c[name := c[name].AddAttribute(attrs.value)] else c
  {
  }

  /** For a registered name, only the attribute is added. */
  lemma DeclaredExisting(m: map<Name, State>, name: Name, parent: Option<Name>, attrs: Option<string>)
    requires name in m
    ensures Declared(m, name, parent, attrs) == if Truthy(attrs) then m[name := m[name].AddAttribute(attrs.value)] else m
  {
  }

  /** The registry `m` after `add_state(n)` for a transition endpoint. */
  function Registered(m: map<Name, State>, n: Name): map<Name, State> {
    if n in m then m else m[n := NewState(n, None)]
  }
  /** The top-level list after `add_state(n)` for a transition endpoint. */
  function RootsAfter(m: map<Name, State>, topLevel: seq<Name>, n: Name): seq<Name> {
    if n in m then topLevel else topLevel + [n]
  }

  /** The registry after `add_edge(s, d)` on the diagram owned by `p`. */
  function WithEdge(m: map<Name, State>, p: Name, s: Name, d: Name): map<Name, State>
    requires p in m
  {
    m[p := m[p].(substates := m[p].substates.AddEdge(s, d))]
  }

  /** The registry after `s.add_destination(d)` then `d.add_source(s)`. */
  function Linked(m: map<Name, State>, s: Name, d: Name): map<Name, State>
    requires s in m && d in m
  {
    var m1 := m[s := m[s].AddDestination(d)];
    m1[d := m1[d].AddSource(s)]
  }

  /** The registry after a successful `add_transition(s, d, parent)` with
      both endpoints already renamed: endpoints registered, the edge added
      to the parent's diagram when the parent is truthy, both ends linked. */
  function Connected(m: map<Name, State>, s: Name, d: Name, parent: Option<Name>): map<Name, State>
    requires !Truthy(parent) || parent.value in Registered(Registered(m, s), d)
  {
    ConnectedIn(Registered(Registered(m, s), d), s, d, parent)
  }

  /** The edge and the links of `add_transition` between registered states. */
  function ConnectedIn(m: map<Name, State>, s: Name, d: Name, parent: Option<Name>): map<Name, State>
    requires s in m && d in m && (!Truthy(parent) || parent.value in m)
  {
    Linked(if Truthy(parent) then WithEdge(m, parent.value, s, d) else m, s, d)
  }

  /** The endpoints `add_transition` registers as new root states. */
  function NewNames(m: map<Name, State>, s: Name, d: Name): set<Name> {
    Fresh(m, s) + Fresh(Registered(m, s), d)
  }

  /** `{n}` when `add_state(n)` registers it, else nothing. */
  function Fresh(m: map<Name, State>, n: Name): set<Name> {
    if n in m then {} else {n}
  }

  /** After a transition from `s` to `d`, both are registered, `s` is no
      end state and `d` no start state, `d` follows `s` and `s` precedes
      `d`, and no state other than the endpoints and the parent changed. */
  lemma ConnectedLinks(m: map<Name, State>, s: Name, d: Name, parent: Option<Name>)
    requires !Truthy(parent) || parent.value in Registered(Registered(m, s), d)
    ensures var r := Connected(m, s, d, parent);
      && r.Keys == m.Keys + {s, d}
      && d in r[s].destination && !r[s].IsEndState()
      && s in r[d].source && !r[d].IsStartState()
      && forall n :: n in m && n != s && n != d && (Truthy(parent) ==> n != parent.value) ==> r[n] == m[n]
  {
  }

  /** The incoming neighbours that the transitions `ts` give the state
      `n`, in the order the transitions were recorded. */
  function Into(ts: seq<Transition>, n: Name): seq<Name> {
    if ts == [] then []
    else Into(ts[..|ts| - 1], n) + (if n in ts[|ts| - 1].dest then ts[|ts| - 1].source else [])
  }

  /** The outgoing neighbours that the transitions `ts` give the state
      `n`, in the order the transitions were recorded. */
  function OutOf(ts: seq<Transition>, n: Name): seq<Name> {
    if ts == [] then []
    else OutOf(ts[..|ts| - 1], n) + (if n in ts[|ts| - 1].source then ts[|ts| - 1].dest else [])
  }

  /** `source` of the state registered as `n`; nothing for an unknown name. */
  function SourcesOf(m: map<Name, State>, n: Name): seq<Name> {
    if n in m then m[n].source else []
  }

  /** `destination` of the state registered as `n`; nothing for an unknown name. */
  function DestinationsOf(m: map<Name, State>, n: Name): seq<Name> {
    if n in m then m[n].destination else []
  }

  /** The neighbour lists of the states are exactly what the recorded
      transitions put there: each state's `source` lists the sources of the
      transitions into it and its `destination` the destinations of the
      transitions out of it, in order; no transition names an unknown state,
      and every transition has a source and a destination. */
  ghost predicate Wired(m: map<Name, State>, ts: seq<Transition>) {
    && (forall t :: t in ts ==> t.source != [] && t.dest != [])
    && (forall n :: SourcesOf(m, n) == Into(ts, n) && DestinationsOf(m, n) == OutOf(ts, n))
  }

  /** Replacing a state by one with the same neighbour lists keeps the
      wiring. */
  lemma WiredKeep(m: map<Name, State>, ts: seq<Transition>, n: Name, st: State)
    requires Wired(m, ts) && n in m
    requires st.source == m[n].source && st.destination == m[n].destination
    ensures Wired(m[n := st], ts)
  {
    var m' := m[n := st];
    forall x
      ensures SourcesOf(m', x) == Into(ts, x) && DestinationsOf(m', x) == OutOf(ts, x)
    {
      assert SourcesOf(m', x) == SourcesOf(m, x) && DestinationsOf(m', x) == DestinationsOf(m, x);
    }
  }

  /** Registering a new state with no neighbours keeps the wiring: no
      recorded transition names it. */
  lemma WiredFresh(m: map<Name, State>, ts: seq<Transition>, n: Name, st: State)
    requires Wired(m, ts) && n !in m
    requires st.source == [] && st.destination == []
    ensures Wired(m[n := st], ts)
  {
    var m' := m[n := st];
    forall x
      ensures SourcesOf(m', x) == Into(ts, x) && DestinationsOf(m', x) == OutOf(ts, x)
    {
      assert SourcesOf(m', x) == SourcesOf(m, x) && DestinationsOf(m', x) == DestinationsOf(m, x);
    }
  }

  /** `add_state` keeps the wiring, whether it completes or raises
      NameError after registering the new name. */
  lemma WiredDeclared(m: map<Name, State>, ts: seq<Transition>, name: Name, parent: Option<Name>, attrs: Option<string>)
    requires Wired(m, ts)
    ensures Wired(Declared(m, name, parent, attrs), ts)
    ensures name !in m ==> Wired(m[name := NewState(name, parent)], ts)
  {
    var m1 := m;
    if name !in m {
      WiredFresh(m, ts, name, NewState(name, parent));
      m1 := m[name := NewState(name, parent)];
      if Truthy(parent) && parent.value in m1 {
        WiredKeep(m1, ts, parent.value, m1[parent.value].AddSubstate(name));
        m1 := m1[parent.value := m1[parent.value].AddSubstate(name)];
      }
    }
    assert m1 == if name in m then m else Created(m, name, parent);
    WiredKeep(m1, ts, name, WithAttr(m1[name], attrs));
  }

  /** Recording the transition from `s` to `d` and linking its two ends,
      as `add_transition` does, keeps the wiring. */
  lemma WiredLinked(m: map<Name, State>, ts: seq<Transition>, s: Name, d: Name, attrs: Option<string>)
    requires Wired(m, ts) && s in m && d in m
    ensures Wired(Linked(m, s, d), ts + [NewTransition(s, d, attrs)])
  {
    var t := NewTransition(s, d, attrs);
    var ts', m' := ts + [t], Linked(m, s, d);
    assert ts'[..|ts'| - 1] == ts;
    forall x
      ensures SourcesOf(m', x) == Into(ts', x) && DestinationsOf(m', x) == OutOf(ts', x)
    {
      assert Into(ts', x) == Into(ts, x) + (if x == d then [s] else []);
      assert OutOf(ts', x) == OutOf(ts, x) + (if x == s then [d] else []);
    }
  }

  /** A successful `add_transition` keeps the wiring: the endpoints it
      registers have no neighbours, the edge touches no neighbour list, and
      the links match the recorded transition. */
  lemma WiredConnected(m: map<Name, State>, ts: seq<Transition>, s: Name, d: Name, parent: Option<Name>, attrs: Option<string>)
    requires Wired(m, ts)
    requires !Truthy(parent) || parent.value in Registered(Registered(m, s), d)
    ensures Wired(Connected(m, s, d, parent), ts + [NewTransition(s, d, attrs)])
  {
    var m1 := Registered(m, s);
    if s !in m {
      WiredFresh(m, ts, s, NewState(s, None));
    }
    var m2 := Registered(m1, d);
    if d !in m1 {
      WiredFresh(m1, ts, d, NewState(d, None));
    }
    var m3 := if Truthy(parent) then WithEdge(m2, parent.value, s, d) else m2;
    if Truthy(parent) {
      WiredKeep(m2, ts, parent.value, m2[parent.value].(substates := m2[parent.value].substates.AddEdge(s, d)));
    }
    WiredLinked(m3, ts, s, d, attrs);
  }

  /** `WiredConnected` for whichever registry `add_transition` leaves
      when it completes. */
  lemma WiredTransition(m: map<Name, State>, ts: seq<Transition>, s: Name, d: Name, parent: Option<Name>, attrs: Option<string>)
    ensures var ok := !Truthy(parent) || parent.value in Registered(Registered(m, s), d);
      Wired(m, ts) && ok ==> Wired(Connected(m, s, d, parent), ts + [NewTransition(s, d, attrs)])
  {
    if Wired(m, ts) && (!Truthy(parent) || parent.value in Registered(Registered(m, s), d)) {
      WiredConnected(m, ts, s, d, parent, attrs);
    }
  }

  /** With every transition having a source, no transition enters `n`
      exactly when the transitions give `n` no incoming neighbour. */
  lemma {:induction false} IntoEmpty(ts: seq<Transition>, n: Name)
    requires forall t :: t in ts ==> t.source != []
    ensures Into(ts, n) == [] <==> forall t :: t in ts ==> n !in t.dest
  {
    if ts != [] {
      var init := ts[..|ts| - 1];
      assert forall t :: t in ts <==> t in init || t == ts[|ts| - 1];
      IntoEmpty(init, n);
    }
  }

  /** With every transition having a destination, no transition leaves
      `n` exactly when the transitions give `n` no outgoing neighbour. */
  lemma {:induction false} OutOfEmpty(ts: seq<Transition>, n: Name)
    requires forall t :: t in ts ==> t.dest != []
    ensures OutOf(ts, n) == [] <==> forall t :: t in ts ==> n !in t.source
  {
    if ts != [] {
      var init := ts[..|ts| - 1];
      assert forall t :: t in ts <==> t in init || t == ts[|ts| - 1];
      OutOfEmpty(init, n);
    }
  }

  /** In a wired registry, `is_start_state()` holds of a registered state
      exactly when no recorded transition enters it. */
  lemma StartWired(m: map<Name, State>, ts: seq<Transition>, n: Name)
    requires Wired(m, ts) && n in m
    ensures m[n].IsStartState() <==> forall t :: t in ts ==> n !in t.dest
  {
    assert SourcesOf(m, n) == Into(ts, n);
    IntoEmpty(ts, n);
  }

  /** In a wired registry, `is_end_state()` holds of a registered state
      exactly when no recorded transition leaves it. */
  lemma EndWired(m: map<Name, State>, ts: seq<Transition>, n: Name)
    requires Wired(m, ts) && n in m
    ensures m[n].IsEndState() <==> forall t :: t in ts ==> n !in t.source
  {
    assert DestinationsOf(m, n) == OutOf(ts, n);
    OutOfEmpty(ts, n);
  }

  /** One pass of the loop of `flatten_graph` visits the next state. */
  lemma FoldStep(states: map<Name, State>, order: map<Name, nat>, g: Graph, ts: seq<Name>, i: nat, lo: nat)
    requires Nested(states, order) && lo <= |states| && i < |ts|
    requires forall c :: c in ts ==> c in states && lo <= order[c]
    ensures ts[i] in states
    ensures Fold(states, order, g, ts[i..], lo) == Fold(states, order, Visit(states, order, g, ts[i]), ts[i + 1..], lo)
  {
    assert ts[i..][0] == ts[i] && ts[i..][1..] == ts[i + 1..];
  }

  /** One pass of the loop body for a superstate whose diagram flattens
      to `child`. */
  lemma VisitSuperstate(states: map<Name, State>, order: map<Name, nat>, g: Graph, b: Name, child: Graph)
    requires Nested(states, order) && b in states && states[b].numSubstates > 0
    requires Flattenable(states, order, states[b].substates, order[b] + 1)
    requires child == FlattenScope(states, order, states[b].substates, order[b] + 1)
    ensures Visit(states, order, g, b) == Collapse(g, b, child, states)
  {
  }

  /** `is_start_state()` of the registered state `n`. */
  predicate StartIn(m: map<Name, State>, n: Name) {
    n in m && m[n].IsStartState()
  }

  /** `is_end_state()` of the registered state `n`. */
  predicate EndIn(m: map<Name, State>, n: Name) {
    n in m && m[n].IsEndState()
  }

  /** A transition passes the filters of `get_transitions`: each truthy
      filter names one of its sources, respectively destinations. */
  predicate Matches(t: Transition, source: Option<StateId>, dest: Option<StateId>) {
    && (IdTruthy(source) ==> source.value.name in t.source)
    && (IdTruthy(dest) ==> dest.value.name in t.dest)
  }

  /** The top-level states that `get_start_states` collects, in order. */
  function StartStates(m: map<Name, State>, topLevel: seq<Name>): seq<Name> {
    Filter(topLevel, StartOf(m))
  }

  function StartOf(m: map<Name, State>): Name -> bool {
    n => StartIn(m, n)
  }

  /** The top-level states that `get_end_states` collects, in order. */
  function EndStates(m: map<Name, State>, topLevel: seq<Name>): seq<Name> {
    Filter(topLevel, EndOf(m))
  }

  function EndOf(m: map<Name, State>): Name -> bool {
    n => EndIn(m, n)
  }

  /** The conditions of the list comprehensions of `get_transitions`. */
  function HasSource(n: Name): Transition -> bool {
    (t: Transition) => n in t.source
  }

  function HasDest(n: Name): Transition -> bool {
    (t: Transition) => n in t.dest
  }

  function MatchesBoth(source: Option<StateId>, dest: Option<StateId>): Transition -> bool {
    (t: Transition) => Matches(t, source, dest)
  }

  /** Filtering by source and then by destination, as `get_transitions`
      does, is the single conjunctive filter `Matches`. */
  lemma FilterBoth(ts: seq<Transition>, source: Option<StateId>, dest: Option<StateId>)
    ensures var bySource := if IdTruthy(source) then Filter(ts, HasSource(source.value.name)) else ts;
      (if IdTruthy(dest) then Filter(bySource, HasDest(dest.value.name)) else bySource)
      == Filter(ts, MatchesBoth(source, dest))
  {
    var matches := MatchesBoth(source, dest);
    if IdTruthy(source) && IdTruthy(dest) {
      FilterFilter(ts, HasSource(source.value.name), HasDest(dest.value.name), matches);
    } else if IdTruthy(source) {
      FilterCongruent(ts, HasSource(source.value.name), matches);
    } else if IdTruthy(dest) {
      FilterCongruent(ts, HasDest(dest.value.name), matches);
    } else {
      FilterAll(ts, matches);
    }
  }

  /** A truthy filter that names no registered state makes `get_state`
      raise NameError. */
  predicate Unknown(m: map<Name, State>, id: Option<StateId>) {
    IdTruthy(id) && id.value.Named? && id.value.name !in m
  }


  /** The root's top-level list holds registered root nodes without a
      truthy parent, each once. */
  ghost predicate RootListed(m: map<Name, State>, topLevel: seq<Name>, nodes: set<Name>) {
    && NoDuplicates(topLevel)
    && forall c :: c in topLevel ==> c in m && c in nodes && !Truthy(m[c].parent)
  }

  /** Each state is registered under its own name and counts the states
      listed in its diagram. */
  ghost predicate SelfNamed(m: map<Name, State>) {
    forall n :: n in m ==> m[n].name == n && m[n].numSubstates == |m[n].substates.topLevel|
  }

  /** A state listed in a superstate's diagram names it as its parent. */
  ghost predicate ChildrenKnowParent(m: map<Name, State>) {
    forall x, c :: x in m && c in m[x].substates.topLevel ==> c in m && m[c].parent == Some(x)
  }

  /** The whole diagram is consistent: each state is registered under its
      own name, the nesting is a tree ordered by registration, a state
      listed in a diagram names that diagram's owner as its parent, each
      counter of substates matches its list, and every top-level state is
      a node of its graph. */
  ghost predicate Coherent(m: map<Name, State>, order: map<Name, nat>, topLevel: seq<Name>, nodes: set<Name>) {
    && Nested(m, order)
    && RootListed(m, topLevel, nodes)
    && SelfNamed(m)
    && ChildrenKnowParent(m)
  }

  /** Replacing a state by one with the same name, parent and substates
      (and no fewer substate graph nodes) keeps the diagram consistent:
      attributes, incoming and outgoing lists and graph edges are free to
      change. */
  lemma CoherentUpdate(m: map<Name, State>, order: map<Name, nat>, topLevel: seq<Name>, nodes: set<Name>, n: Name, s: State)
    requires Coherent(m, order, topLevel, nodes) && n in m
    requires s.name == m[n].name && s.parent == m[n].parent && s.numSubstates == m[n].numSubstates
    requires s.substates.topLevel == m[n].substates.topLevel && m[n].substates.nodes <= s.substates.nodes
    ensures Coherent(m[n := s], order, topLevel, nodes)
  {
    NestedUpdate(m, order, n, s);
    TreeUpdate(m, topLevel, nodes, n, s);
  }

  lemma NestedUpdate(m: map<Name, State>, order: map<Name, nat>, n: Name, s: State)
    requires Nested(m, order) && n in m
    requires s.substates.topLevel == m[n].substates.topLevel && m[n].substates.nodes <= s.substates.nodes
    ensures Nested(m[n := s], order)
  {
    var m' := m[n := s];
    assert m'.Keys == m.Keys;
    assert |m'| == |m|;
    ChildrenLaterKept(m, m', order);
  }

  /** The nesting order survives any change that keeps every top-level
      list and no fewer graph nodes. */
  lemma ChildrenLaterKept(m: map<Name, State>, m': map<Name, State>, order: map<Name, nat>)
    requires order.Keys == m.Keys == m'.Keys && ChildrenLater(m, order)
    requires forall x :: x in m' ==>
      m'[x].substates.topLevel == m[x].substates.topLevel && m[x].substates.nodes <= m'[x].substates.nodes
    ensures ChildrenLater(m', order)
  {
    forall x, c | x in m' && c in m'[x].substates.topLevel
      ensures c in m' && c in m'[x].substates.nodes && order[x] < order[c]
    {
      assert c in m[x].substates.topLevel;
    }
  }

  lemma TreeUpdate(m: map<Name, State>, topLevel: seq<Name>, nodes: set<Name>, n: Name, s: State)
    requires RootListed(m, topLevel, nodes) && SelfNamed(m) && ChildrenKnowParent(m)
    requires n in m
    requires s.name == m[n].name && s.parent == m[n].parent && s.numSubstates == m[n].numSubstates
    requires s.substates.topLevel == m[n].substates.topLevel
    ensures RootListed(m[n := s], topLevel, nodes) && SelfNamed(m[n := s])
    ensures ChildrenKnowParent(m[n := s])
  {
    ParentsUpdate(m, n, s);
  }

  lemma ParentsUpdate(m: map<Name, State>, n: Name, s: State)
    requires ChildrenKnowParent(m) && n in m
    requires s.parent == m[n].parent && s.substates.topLevel == m[n].substates.topLevel
    ensures ChildrenKnowParent(m[n := s])
  {
    var m' := m[n := s];
    forall x, c | x in m' && c in m'[x].substates.topLevel
      ensures c in m' && m'[c].parent == Some(x)
    {
      assert c in m[x].substates.topLevel;
    }
  }

  /** Registering a new state with no truthy parent at the end of the
      top-level list keeps the diagram consistent. */
  lemma CoherentNewRoot(m: map<Name, State>, order: map<Name, nat>, topLevel: seq<Name>, nodes: set<Name>, n: Name, parent: Option<Name>)
    requires Coherent(m, order, topLevel, nodes) && n !in m && !Truthy(parent)
    ensures Coherent(m[n := NewState(n, parent)], order[n := |m|], topLevel + [n], nodes + {n})
  {
    NestedNewLeaf(m, order, n, NewState(n, parent));
    TreeNewRoot(m, topLevel, nodes, n, parent);
  }

  /** A new state with an empty diagram extends the nesting tree. */
  lemma NestedNewLeaf(m: map<Name, State>, order: map<Name, nat>, n: Name, s: State)
    requires Nested(m, order) && n !in m && s.substates.topLevel == []
    ensures Nested(m[n := s], order[n := |m|])
  {
    var m', order' := m[n := s], order[n := |m|];
    assert |m'| == |m| + 1;
    forall x | x in m' ensures NoDuplicates(m'[x].substates.topLevel) {
      if x != n { assert m'[x] == m[x]; }
    }
    forall x, c | x in m' && c in m'[x].substates.topLevel
      ensures c in m' && c in m'[x].substates.nodes && order'[x] < order'[c]
    {
      assert x != n;
      assert c in m[x].substates.topLevel;
    }
  }

  lemma TreeNewRoot(m: map<Name, State>, topLevel: seq<Name>, nodes: set<Name>, n: Name, parent: Option<Name>)
    requires RootListed(m, topLevel, nodes) && SelfNamed(m) && ChildrenKnowParent(m)
    requires n !in m && !Truthy(parent)
    ensures var m' := m[n := NewState(n, parent)];
      && RootListed(m', topLevel + [n], nodes + {n}) && SelfNamed(m')
      && ChildrenKnowParent(m')
  {
    assert n !in topLevel;
    NoDuplicatesAppend(topLevel, n);
    ParentsNewLeaf(m, n, NewState(n, parent));
  }

  lemma ParentsNewLeaf(m: map<Name, State>, n: Name, s: State)
    requires ChildrenKnowParent(m) && n !in m && s.substates.topLevel == []
    ensures ChildrenKnowParent(m[n := s])
  {
    var m' := m[n := s];
    forall x, c | x in m' && c in m'[x].substates.topLevel
      ensures c in m' && m'[c].parent == Some(x)
    {
      assert x != n;
      assert c in m[x].substates.topLevel;
    }
  }

  /** Registering a new state under a registered parent, at the end of the
      parent's top-level list, keeps the diagram consistent. */
  lemma CoherentNewChild(m: map<Name, State>, order: map<Name, nat>, topLevel: seq<Name>, nodes: set<Name>, n: Name, parent: Option<Name>)
    requires Coherent(m, order, topLevel, nodes) && n !in m && Truthy(parent) && parent.value in m
    ensures var m1 := m[n := NewState(n, parent)];
      Coherent(m1[parent.value := m1[parent.value].AddSubstate(n)], order[n := |m|], topLevel, nodes)
  {
    NestedNewChild(m, order, n, parent);
    TreeNewChild(m, topLevel, nodes, n, parent);
  }

  /** A new state whose parent is not registered, as `add_state` leaves
      it before raising NameError, keeps the diagram consistent: it lists
      no substates and is listed nowhere. */
  lemma CoherentOrphan(m: map<Name, State>, order: map<Name, nat>, topLevel: seq<Name>, nodes: set<Name>, n: Name, parent: Option<Name>)
    requires Coherent(m, order, topLevel, nodes) && n !in m && Truthy(parent) && parent.value !in m
    ensures Coherent(m[n := NewState(n, parent)], order[n := |m|], topLevel, nodes)
  {
    var m' := m[n := NewState(n, parent)];
    NestedNewLeaf(m, order, n, NewState(n, parent));
    forall x, c | x in m' && c in m'[x].substates.topLevel
      ensures c in m' && m'[c].parent == Some(x)
    {
      assert x != n && c in m[x].substates.topLevel;
    }
  }

  lemma NestedNewChild(m: map<Name, State>, order: map<Name, nat>, n: Name, parent: Option<Name>)
    requires Nested(m, order) && n !in m && Truthy(parent) && parent.value in m
    requires m[parent.value].numSubstates == |m[parent.value].substates.topLevel|
    ensures var m1 := m[n := NewState(n, parent)];
      Nested(m1[parent.value := m1[parent.value].AddSubstate(n)], order[n := |m|])
  {
    var p := parent.value;
    var m1 := m[n := NewState(n, parent)];
    var m' := m1[p := m1[p].AddSubstate(n)];
    assert |m'| == |m| + 1;
    UniqueNewChild(m, order, n, parent);
    LaterNewChild(m, order, n, p, m');
  }

  /** The diagram gaining `n` still lists each state once. */
  lemma UniqueNewChild(m: map<Name, State>, order: map<Name, nat>, n: Name, parent: Option<Name>)
    requires Nested(m, order) && n !in m && Truthy(parent) && parent.value in m
    ensures var m1 := m[n := NewState(n, parent)];
      var m' := m1[parent.value := m1[parent.value].AddSubstate(n)];
      forall x :: x in m' ==> NoDuplicates(m'[x].substates.topLevel)
  {
    var p := parent.value;
    var m1 := m[n := NewState(n, parent)];
    var m' := m1[p := m1[p].AddSubstate(n)];
    assert n !in m[p].substates.topLevel;
    NoDuplicatesAppend(m[p].substates.topLevel, n);
    forall x | x in m' ensures NoDuplicates(m'[x].substates.topLevel) {
      if x != p && x != n { assert m'[x] == m[x]; }
    }
  }

  /** The new child is registered after its parent, and every other
      listed state keeps its place. */
  lemma LaterNewChild(m: map<Name, State>, order: map<Name, nat>, n: Name, p: Name, m': map<Name, State>)
    requires Nested(m, order) && n !in m && p in m
    requires m' == m[n := NewState(n, Some(p))][p := m[p].AddSubstate(n)]
    ensures forall x, c :: x in m' && c in m'[x].substates.topLevel ==>
      c in m' && c in m'[x].substates.nodes && order[n := |m|][x] < order[n := |m|][c]
  {
    var order' := order[n := |m|];
    forall x, c | x in m' && c in m'[x].substates.topLevel
      ensures c in m' && c in m'[x].substates.nodes && order'[x] < order'[c]
    {
      assert x != n;
      if x != p || c != n {
        assert c in m[x].substates.topLevel;
      }
    }
  }

  lemma TreeNewChild(m: map<Name, State>, topLevel: seq<Name>, nodes: set<Name>, n: Name, parent: Option<Name>)
    requires RootListed(m, topLevel, nodes) && SelfNamed(m) && ChildrenKnowParent(m)
    requires n !in m && Truthy(parent) && parent.value in m
    ensures var m1 := m[n := NewState(n, parent)];
      var m' := m1[parent.value := m1[parent.value].AddSubstate(n)];
      && RootListed(m', topLevel, nodes) && SelfNamed(m')
      && ChildrenKnowParent(m')
  {
    ParentsNewChild(m, n, parent);
  }

  lemma ParentsNewChild(m: map<Name, State>, n: Name, parent: Option<Name>)
    requires ChildrenKnowParent(m) && n !in m && Truthy(parent) && parent.value in m
    requires SelfNamed(m)
    ensures var m1 := m[n := NewState(n, parent)];
      ChildrenKnowParent(m1[parent.value := m1[parent.value].AddSubstate(n)])
  {
    var p := parent.value;
    var m1 := m[n := NewState(n, parent)];
    var m' := m1[p := m1[p].AddSubstate(n)];
    forall x, c | x in m' && c in m'[x].substates.topLevel
      ensures c in m' && m'[c].parent == Some(x)
    {
      assert x != n;
      if x != p || c != n {
        assert c in m[x].substates.topLevel;
        assert c != n && c != p ==> m'[c] == m[c];
      }
    }
  }

  class StateDiagram {
    var stateNames: map<Name, State>
    var topLevel: seq<Name>
    var transitions: seq<Transition>
    var nodes: set<Name>
    var edges: set<Edge>
    /** Registration index of each state; it orders the nesting tree. */
    ghost var order: map<Name, nat>

    ghost predicate Valid()
      reads this`stateNames, this`order, this`topLevel, this`nodes
    {
      Coherent(stateNames, order, topLevel, nodes)
    }

    constructor ()
      ensures Valid()
      ensures stateNames == map[] && topLevel == [] && transitions == []
      ensures nodes == {} && edges == {}
      ensures Wired(stateNames, transitions)
    {
      stateNames, topLevel, transitions := map[], [], [];
      nodes, edges := {}, {};
      order := map[];
    }

    /** `get_state`: a State object is returned as it is, a name resolves
        to its registered State, an unknown name raises NameError. */
    function GetState(id: StateId): (r: Result<Name>)
      reads this
      ensures id.Obj? ==> r == Ok(id.name)
      ensures id.Named? ==> (r.Ok? <==> id.name in stateNames)
      ensures r.Ok? ==> r.value == id.name
      ensures r.Err? ==> r.error == NameError
    {
      if id.Obj? || id.name in stateNames then Ok(id.name) else Err(NameError)
    }

    /** `check_state_exists`: a name exists exactly when `get_state`
        resolves it; a State object exists when it is a node of the root
        graph. */
    function CheckStateExists(id: StateId): (b: bool)
      reads this
      ensures id.Named? ==> (b <==> GetState(id).Ok?)
      ensures id.Obj? ==> (b <==> id.name in nodes)
    {
      if id.Named? then id.name in stateNames else id.name in nodes
    }

    /** `get_transitions`: every transition, narrowed to those with the
        given source when that filter is truthy, then to those with the
        given destination when that one is; a filter naming no registered
        state raises NameError. */
    function GetTransitions(source: Option<StateId>, dest: Option<StateId>): (r: Result<seq<Transition>>)
      reads this
      ensures r.Err? <==> Unknown(stateNames, source) || Unknown(stateNames, dest)
      ensures r.Err? ==> r.error == NameError
      ensures r.Ok? ==> r.value == Filter(transitions, MatchesBoth(source, dest))
      ensures r.Ok? ==> forall t :: t in r.value <==> t in transitions && Matches(t, source, dest)
      ensures !IdTruthy(source) && !IdTruthy(dest) ==> r == Ok(transitions)
    {
      FilterBoth(transitions, source, dest);
      FilterMembers(transitions, MatchesBoth(source, dest));
      if IdTruthy(source) && GetState(source.value).Err? then Err(NameError)
      else
        var bySource := if IdTruthy(source) then Filter(transitions, HasSource(GetState(source.value).value)) else transitions;
        if IdTruthy(dest) && GetState(dest.value).Err? then Err(NameError)
        else Ok(if IdTruthy(dest) then Filter(bySource, HasDest(GetState(dest.value).value)) else bySource)
    }

    /** `get_start_states`: the top-level states with no incoming
        transition, in declaration order. */
    method GetStartStates() returns (r: seq<Name>)
      ensures r == StartStates(stateNames, topLevel)
      ensures forall n :: n in r <==> n in topLevel && StartIn(stateNames, n)
      ensures Wired(stateNames, transitions) ==> forall n :: n in r <==>
        n in topLevel && n in stateNames && forall t :: t in transitions ==> n !in t.dest
    {
      r := [];
      var i := 0;
      while i < |topLevel|
        invariant 0 <= i <= |topLevel|
        invariant r == StartStates(stateNames, topLevel[..i])
      {
        var n := topLevel[i];
        assert topLevel[..i + 1] == topLevel[..i] + [n];
        FilterAppend(topLevel[..i], [n], StartOf(stateNames));
        if n in stateNames && stateNames[n].IsStartState() {
          r := r + [n];
        }
        i := i + 1;
      }
      assert topLevel[..i] == topLevel;
      FilterMembers(topLevel, StartOf(stateNames));
      if Wired(stateNames, transitions) {
        forall n | n in stateNames {
          StartWired(stateNames, transitions, n);
        }
      }
    }

    /** `get_end_states`: the top-level states with no outgoing
        transition, in declaration order. */
    method GetEndStates() returns (r: seq<Name>)
      ensures r == EndStates(stateNames, topLevel)
      ensures forall n :: n in r <==> n in topLevel && EndIn(stateNames, n)
      ensures Wired(stateNames, transitions) ==> forall n :: n in r <==>
        n in topLevel && n in stateNames && forall t :: t in transitions ==> n !in t.source
    {
      r := [];
      var i := 0;
      while i < |topLevel|
        invariant 0 <= i <= |topLevel|
        invariant r == EndStates(stateNames, topLevel[..i])
      {
        var n := topLevel[i];
        assert topLevel[..i + 1] == topLevel[..i] + [n];
        FilterAppend(topLevel[..i], [n], EndOf(stateNames));
        if n in stateNames && stateNames[n].IsEndState() {
          r := r + [n];
        }
        i := i + 1;
      }
      assert topLevel[..i] == topLevel;
      FilterMembers(topLevel, EndOf(stateNames));
      if Wired(stateNames, transitions) {
        forall n | n in stateNames {
          EndWired(stateNames, transitions, n);
        }
      }
    }

    /** `add_state`. A registered name creates nothing: only the truthy
        attribute is appended to it. A new name is registered, then either
        made a root node appended once to `topLevel` or, under a truthy
        parent, appended to the parent's diagram with the parent's counter
        of substates raised by one. An unregistered parent raises NameError
        after the new name was registered. */
    method AddState(name: Name, parent: Option<Name>, attrs: Option<string>) returns (r: Outcome)
      requires Valid()
      modifies this
      ensures transitions == old(transitions) && edges == old(edges)
      ensures r.Fail? <==> DeclareFails(old(stateNames), name, parent)
      ensures r.Fail? ==> r.error == NameError && stateNames == old(stateNames)[name := NewState(name, parent)]
      ensures r.Pass? ==> stateNames == Declared(old(stateNames), name, parent, attrs)
      ensures var root := r.Pass? && name !in old(stateNames) && !Truthy(parent);
        topLevel == old(topLevel) + (if root then [name] else []) && nodes == old(nodes) + (if root then {name} else {})
      ensures r.Pass? && !(name !in old(stateNames) && parent == Some(name)) ==> Valid()
      ensures r.Fail? ==> Valid()
      ensures old(Wired(stateNames, transitions)) ==> Wired(stateNames, transitions)
    {
      if Wired(stateNames, transitions) {
        WiredDeclared(stateNames, transitions, name, parent, attrs);
      }
      if CheckStateExists(Named(name)) {
        DeclaredExisting(stateNames, name, parent, attrs);
        if Truthy(attrs) {
          AppendAttribute(name, attrs.value);
        }
        return Pass;
      }
      r := DeclareNew(name, parent, attrs);
    }

    /** `add_state` for a name not registered yet. */
    method DeclareNew(name: Name, parent: Option<Name>, attrs: Option<string>) returns (r: Outcome)
      requires Valid() && name !in stateNames
      modifies this
      ensures transitions == old(transitions) && edges == old(edges)
      ensures r.Fail? <==> DeclareFails(old(stateNames), name, parent)
      ensures r.Fail? ==> r.error == NameError && stateNames == old(stateNames)[name := NewState(name, parent)]
      ensures r.Pass? ==> stateNames == Declared(old(stateNames), name, parent, attrs)
      ensures var root := r.Pass? && !Truthy(parent);
        topLevel == old(topLevel) + (if root then [name] else []) && nodes == old(nodes) + (if root then {name} else {})
      ensures r.Pass? && parent != Some(name) ==> Valid()
      ensures r.Fail? ==> Valid()
    {
      ghost var m := stateNames;
      r := RegisterNew(name, parent);
      DeclaredNew(m, name, parent, attrs);
      if r.Pass? && Truthy(attrs) {
        AppendAttribute(name, attrs.value);
      }
    }

    /** `State.add_attribute` on the registered state `name`: its
        attribute list grows by `a` and nothing else changes. */
    method AppendAttribute(name: Name, a: string)
      requires name in stateNames
      modifies this
      ensures stateNames == old(stateNames)[name := old(stateNames)[name].AddAttribute(a)]
      ensures topLevel == old(topLevel) && nodes == old(nodes) && order == old(order)
      ensures transitions == old(transitions) && edges == old(edges)
      ensures old(Valid()) ==> Valid()
    {
      if Valid() {
        CoherentUpdate(stateNames, order, topLevel, nodes, name, stateNames[name].AddAttribute(a));
      }
      stateNames := stateNames[name := stateNames[name].AddAttribute(a)];
    }

    /** The creation branch of `add_state`: register the new State under
        its name, then place it in its parent's diagram or at the root. */
    method RegisterNew(name: Name, parent: Option<Name>) returns (r: Outcome)
      requires Valid() && name !in stateNames
      modifies this
      ensures transitions == old(transitions) && edges == old(edges)
      ensures r.Fail? <==> DeclareFails(old(stateNames), name, parent)
      ensures r.Fail? ==> r.error == NameError && stateNames == old(stateNames)[name := NewState(name, parent)]
      ensures r.Pass? ==> stateNames == Created(old(stateNames), name, parent)
      ensures var root := !Truthy(parent);
        topLevel == old(topLevel) + (if root then [name] else []) && nodes == old(nodes) + (if root then {name} else {})
      ensures r.Pass? && parent != Some(name) ==> Valid()
      ensures r.Fail? ==> Valid()
    {
      if Truthy(parent) {
        r := RegisterChild(name, parent);
      } else {
        RegisterRoot(name, parent);
        r := Pass;
      }
    }

    /** A new state without a truthy parent becomes a root node, appended
        once to the top-level list. */
    method RegisterRoot(name: Name, parent: Option<Name>)
      requires Valid() && name !in stateNames && !Truthy(parent)
      modifies this
      ensures transitions == old(transitions) && edges == old(edges)
      ensures stateNames == old(stateNames)[name := NewState(name, parent)]
      ensures topLevel == old(topLevel) + [name] && nodes == old(nodes) + {name}
      ensures Valid()
    {
      CoherentNewRoot(stateNames, order, topLevel, nodes, name, parent);
      order := order[name := |stateNames|];
      stateNames := stateNames[name := NewState(name, parent)];
      nodes := nodes + {name};
      topLevel := topLevel + [name];
    }

    /** A new state under a truthy parent is registered, then appended to
        the parent's diagram; an unregistered parent raises NameError. */
    method RegisterChild(name: Name, parent: Option<Name>) returns (r: Outcome)
      requires Valid() && name !in stateNames && Truthy(parent)
      modifies this
      ensures transitions == old(transitions) && edges == old(edges)
      ensures topLevel == old(topLevel) && nodes == old(nodes)
      ensures r.Fail? <==> parent.value != name && parent.value !in old(stateNames)
      ensures r.Fail? ==> r.error == NameError && stateNames == old(stateNames)[name := NewState(name, parent)]
      ensures r.Pass? ==> stateNames == Attached(old(stateNames), name, parent.value)
      ensures r.Pass? && parent.value != name ==> Valid()
      ensures r.Fail? ==> Valid()
    {
      if parent.value != name && parent.value !in stateNames {
        CoherentOrphan(stateNames, order, topLevel, nodes, name, parent);
        order := order[name := |stateNames|];
        stateNames := stateNames[name := NewState(name, parent)];
        return Fail(NameError);
      }
      if parent.value != name {
        CoherentNewChild(stateNames, order, topLevel, nodes, name, parent);
      }
      order := order[name := |stateNames|];
      stateNames := stateNames[name := NewState(name, parent)];
      stateNames := stateNames[parent.value := stateNames[parent.value].AddSubstate(name)];
      r := Pass;
    }

    /** `add_state_attr`: the attribute is appended to the state, whatever
        its truthiness; a name that is not registered raises NameError. */
    method AddStateAttr(id: StateId, attr: string) returns (r: Outcome)
      requires Valid()
      modifies this
      ensures r.Fail? <==> id.Named? && id.name !in old(stateNames)
      ensures r.Fail? ==> r.error == NameError
      ensures stateNames == if id.name in old(stateNames)
        then old(stateNames)[id.name := old(stateNames)[id.name].AddAttribute(attr)]
        else old(stateNames)
      ensures topLevel == old(topLevel) && nodes == old(nodes)
      ensures transitions == old(transitions) && edges == old(edges)
      ensures Valid()
      ensures old(Wired(stateNames, transitions)) ==> Wired(stateNames, transitions)
    {
      var got := GetState(id);
      if got.Err? {
        return Fail(got.error);
      }
      if got.value in stateNames {
        if Wired(stateNames, transitions) {
          WiredKeep(stateNames, transitions, got.value, stateNames[got.value].AddAttribute(attr));
        }
        AppendAttribute(got.value, attr);
      }
      r := Pass;
    }

    /** `add_transition`. `[*]` is renamed to `START` as a source and to
        `END` as a destination; an endpoint not registered yet is added as
        a root state; the transition is appended; its edge goes into the
        parent's diagram when the parent is truthy, else into the root
        graph; then the source lists the destination as an outgoing
        neighbour and the destination the source as an incoming one. An
        unregistered truthy parent raises NameError once the endpoints are
        registered and the transition appended, before any edge or link. */
    method AddTransition(source: Name, dest: Name, parent: Option<Name>, attrs: Option<string>) returns (r: Outcome)
      requires Valid()
      modifies this
      ensures transitions == old(transitions) + [NewTransition(SourceName(source), DestName(dest), attrs)]
      ensures var s, d := SourceName(source), DestName(dest);
        topLevel == RootsAfter(Registered(old(stateNames), s), RootsAfter(old(stateNames), old(topLevel), s), d)
      ensures var s, d := SourceName(source), DestName(dest);
        r.Fail? <==> Truthy(parent) && parent.value !in Registered(Registered(old(stateNames), s), d)
      ensures r.Fail? ==> r.error == NameError
      ensures var s, d := SourceName(source), DestName(dest);
        stateNames == if r.Pass? then Connected(old(stateNames), s, d, parent)
                      else Registered(Registered(old(stateNames), s), d)
      ensures var s, d := SourceName(source), DestName(dest);
        var rootEdge := r.Pass? && !Truthy(parent);
        && nodes == old(nodes) + NewNames(old(stateNames), s, d) + (if rootEdge then {s, d} else {})
        && edges == old(edges) + (if rootEdge then {(s, d)} else {})
      ensures Valid()
      ensures old(Wired(stateNames, transitions)) && r.Pass? ==> Wired(stateNames, transitions)
    {
      var s, d := SourceName(source), DestName(dest);
      WiredTransition(stateNames, transitions, s, d, parent, attrs);
      RegisterEndpoints(s, d);
      transitions := transitions + [NewTransition(s, d, attrs)];
      r := Connect(s, d, parent);
    }

    /** The loop of `add_transition` over `[source, dest]`. */
    method RegisterEndpoints(s: Name, d: Name)
      requires Valid()
      modifies this
      ensures stateNames == Registered(Registered(old(stateNames), s), d)
      ensures topLevel == RootsAfter(Registered(old(stateNames), s), RootsAfter(old(stateNames), old(topLevel), s), d)
      ensures nodes == old(nodes) + NewNames(old(stateNames), s, d)
      ensures transitions == old(transitions) && edges == old(edges)
      ensures Valid()
    {
      RegisterEndpoint(s);
      RegisterEndpoint(d);
    }

    /** The end of `add_transition` once both endpoints are registered:
        the edge, then the links between the two states. */
    method Connect(s: Name, d: Name, parent: Option<Name>) returns (r: Outcome)
      requires Valid() && s in stateNames && d in stateNames
      modifies this
      ensures r.Fail? <==> Truthy(parent) && parent.value !in old(stateNames)
      ensures r.Fail? ==> r.error == NameError
      ensures stateNames == if r.Pass? then ConnectedIn(old(stateNames), s, d, parent) else old(stateNames)
      ensures var rootEdge := r.Pass? && !Truthy(parent);
        && nodes == old(nodes) + (if rootEdge then {s, d} else {})
        && edges == old(edges) + (if rootEdge then {(s, d)} else {})
      ensures topLevel == old(topLevel) && transitions == old(transitions)
      ensures Valid()
    {
      if Truthy(parent) {
        if parent.value !in stateNames {
          return Fail(NameError);
        }
        AddInnerEdge(parent.value, s, d);
      } else {
        AddRootEdge(s, d);
      }
      Link(s, d);
      r := Pass;
    }

    /** `if not check_state_exists(n): add_state(n)`. */
    method RegisterEndpoint(n: Name)
      requires Valid()
      modifies this
      ensures stateNames == Registered(old(stateNames), n)
      ensures topLevel == RootsAfter(old(stateNames), old(topLevel), n)
      ensures nodes == old(nodes) + Fresh(old(stateNames), n)
      ensures transitions == old(transitions) && edges == old(edges)
      ensures Valid()
    {
      if !CheckStateExists(Named(n)) {
        var _ := AddState(n, None, None);
      }
    }

    /** `get_state(p).substates.add_edge(s, d)`. */
    method AddInnerEdge(p: Name, s: Name, d: Name)
      requires Valid() && p in stateNames
      modifies this
      ensures stateNames == WithEdge(old(stateNames), p, s, d)
      ensures topLevel == old(topLevel) && nodes == old(nodes)
      ensures transitions == old(transitions) && edges == old(edges)
      ensures Valid()
    {
      ReplaceState(p, stateNames[p].(substates := stateNames[p].substates.AddEdge(s, d)));
    }

    /** `add_edge(s, d)` on the root graph, which adds both endpoints as
        nodes. */
    method AddRootEdge(s: Name, d: Name)
      requires Valid()
      modifies this
      ensures nodes == old(nodes) + {s, d} && edges == old(edges) + {(s, d)}
      ensures stateNames == old(stateNames) && topLevel == old(topLevel) && transitions == old(transitions)
      ensures Valid()
    {
      nodes := nodes + {s, d};
      edges := edges + {(s, d)};
    }

    /** `source.add_destination(dest)` then `dest.add_source(source)`. */
    method Link(s: Name, d: Name)
      requires Valid() && s in stateNames && d in stateNames
      modifies this
      ensures stateNames == Linked(old(stateNames), s, d)
      ensures topLevel == old(topLevel) && nodes == old(nodes)
      ensures transitions == old(transitions) && edges == old(edges)
      ensures Valid()
    {
      ReplaceState(s, stateNames[s].AddDestination(d));
      ReplaceState(d, stateNames[d].AddSource(s));
    }

    /** An in-place update of the registered State `n` that leaves its
        name, parent and declared substates alone. */
    method ReplaceState(n: Name, st: State)
      requires Valid() && n in stateNames
      requires st.name == stateNames[n].name && st.parent == stateNames[n].parent
      requires st.numSubstates == stateNames[n].numSubstates
      requires st.substates.topLevel == stateNames[n].substates.topLevel
      requires stateNames[n].substates.nodes <= st.substates.nodes
      modifies this
      ensures stateNames == old(stateNames)[n := st]
      ensures topLevel == old(topLevel) && nodes == old(nodes)
      ensures transitions == old(transitions) && edges == old(edges)
      ensures Valid()
    {
      CoherentUpdate(stateNames, order, topLevel, nodes, n, st);
      stateNames := stateNames[n := st];
    }


    /** `flatten_graph` on the root diagram: every superstate is replaced,
        recursively, by the flattened graph of its own diagram, wired to
        the superstate's incoming and outgoing neighbours; the result has
        no dangling edge. */
    method FlattenGraph() returns (g: Graph)
      requires Valid()
      ensures Flattenable(stateNames, order, Scope(nodes, edges, topLevel), 0)
      ensures g == FlattenScope(stateNames, order, Scope(nodes, edges, topLevel), 0)
      ensures WellFormed(g)
    {
      var root := Scope(nodes, edges, topLevel);
      g := FlattenScopeOf(root, 0);
      FlattenWellFormed(stateNames, order, root, 0);
    }

    /** `flatten_graph` on the diagram `sc`, owned by the root or by a
        superstate registered before index `lo`: the graph induced on the
        top-level states, then each superstate among them collapsed in
        declaration order. */
    method FlattenScopeOf(sc: Scope, ghost lo: nat) returns (g: Graph)
      requires Flattenable(stateNames, order, sc, lo)
      ensures g == FlattenScope(stateNames, order, sc, lo)
      decreases |stateNames| + 1 - lo, 1
    {
      g := Induced(sc);
      var i := 0;
      while i < |sc.topLevel|
        invariant 0 <= i <= |sc.topLevel|
        invariant Fold(stateNames, order, g, sc.topLevel[i..], lo) == FlattenScope(stateNames, order, sc, lo)
      {
        FoldStep(stateNames, order, g, sc.topLevel, i, lo);
        g := VisitState(g, sc.topLevel[i]);
        i := i + 1;
      }
    }

    /** The body of the loop of `flatten_graph` for the top-level state
        `b`: a superstate is collapsed into the flattened graph of its own
        diagram, any other state is left alone. */
    method VisitState(g: Graph, b: Name) returns (g': Graph)
      requires Nested(stateNames, order) && b in stateNames
      ensures g' == Visit(stateNames, order, g, b)
      decreases |stateNames| - order[b], 2
    {
      if stateNames[b].numSubstates > 0 {
        SubstatesFlattenable(stateNames, order, b);
        var child := FlattenScopeOf(stateNames[b].substates, order[b] + 1);
        VisitSuperstate(stateNames, order, g, b, child);
        g' := Collapse(g, b, child, stateNames);
      } else {
        g' := g;
      }
    }
  }
}
