/** The value part of the state graph model: states, transitions, the graph
    a superstate owns, and the per-state list updates of
    tools/StateModel.py. A State is identified by its name: every state of
    a diagram, substates included, is registered under its name in the
    root diagram, so a name is a reference to exactly one State object. */
module States {
  import opened Base

  type Name = string
  type Edge = (Name, Name)

  /** The diagram a superstate owns (`State.substates`): a directed graph
      and the list of the states declared directly inside it. Its own name
      map and transition list stay empty, so they are not kept. */
  datatype Scope = Scope(nodes: set<Name>, edges: set<Edge>, topLevel: seq<Name>)
  {
    /** `DiGraph.add_edge`: the edge, and its endpoints as nodes. */
    function AddEdge(a: Name, b: Name): (r: Scope)
      ensures (a, b) in r.edges && a in r.nodes && b in r.nodes
      ensures r.edges - {(a, b)} == edges - {(a, b)}
      ensures r.nodes - {a, b} == nodes - {a, b}
      ensures r.topLevel == topLevel
    {
      Scope(nodes + {a, b}, edges + {(a, b)}, topLevel)
    }
  }

  const EmptyScope := Scope({}, {}, [])

  datatype State = State(
    name: Name,
    attrs: seq<string>,
    parent: Option<Name>,      // the enclosing superstate's name, as given
    substates: Scope,
    numSubstates: nat,
    source: seq<Name>,         // states with a transition into this one
    destination: seq<Name>,    // states this one has a transition to
    active: bool)
  {
    /** `add_attribute`: one more attribute at the end, nothing else. */
    function AddAttribute(a: string): (r: State)
      ensures r.attrs == attrs + [a]
      ensures r.(attrs := attrs) == this
    {
      this.(attrs := attrs + [a])
    }

    /** `add_substate`: the counter of substates keeps matching the
        top-level list of the owned diagram, which gains `n` at its end. */
    function AddSubstate(n: Name): (r: State)
      ensures r.numSubstates == numSubstates + 1
      ensures numSubstates == |substates.topLevel| ==> r.numSubstates == |r.substates.topLevel|
      ensures r.substates.topLevel == substates.topLevel + [n]
      ensures r.substates.nodes == substates.nodes + {n}
      ensures r.substates.edges == substates.edges
      ensures r.(substates := substates, numSubstates := numSubstates) == this
    {
      this.(substates := substates.(nodes := substates.nodes + {n},
                                    topLevel := substates.topLevel + [n]),
            numSubstates := numSubstates + 1)
    }

    /** `add_source`: one more incoming neighbour, nothing else. */
    function AddSource(n: Name): (r: State)
      ensures r.source == source + [n] && !r.IsStartState()
      ensures r.(source := source) == this
    {
      this.(source := source + [n])
    }

    /** `add_destination`: one more outgoing neighbour, nothing else. */
    function AddDestination(n: Name): (r: State)
      ensures r.destination == destination + [n] && !r.IsEndState()
      ensures r.(destination := destination) == this
    {
      this.(destination := destination + [n])
    }

    /** Local `is_start_state()`: nothing leads into this state. */
    predicate IsStartState() {
      |source| == 0
    }

    /** Local `is_end_state()`: nothing leads out of this state. */
    predicate IsEndState() {
      |destination| == 0
    }
  }

  /** The `State(name, parent_state)` constructor. */
  function NewState(name: Name, parent: Option<Name>): (s: State)
    ensures s.name == name && s.parent == parent && s.attrs == []
    ensures s.IsStartState() && s.IsEndState() && !s.active
    ensures s.substates == EmptyScope && s.numSubstates == 0
  {
    State(name, [], parent, EmptyScope, 0, [], [], false)
  }

  datatype Transition = Transition(source: seq<Name>, dest: seq<Name>, attrs: seq<string>)

  /** `Transition(source, dest)` followed by `add_attribute(attributes)`
      when the attribute is truthy. */
  function NewTransition(src: Name, dst: Name, attr: Option<string>): (t: Transition)
    ensures t.source == [src] && t.dest == [dst]
    ensures |t.attrs| <= 1
    ensures t.attrs != [] <==> Truthy(attr)
    ensures Truthy(attr) ==> t.attrs == [attr.value]
  {
    Transition([src], [dst], if Truthy(attr) then [attr.value] else [])
  }
}
