# PlantUML state diagrams: builder and state graph model

This project models two files of a Python tool that turns the token
stream of a PlantUML lexer into a nested state graph and flattens it.

- `tools/StateModel.py` has three parts.
  - `StateDiagram` registers every state by name. It also keeps the list of
    top-level states, every transition, and its own directed graph.
  - `State` holds a state's attributes, its parent's name, the diagram of its
    substates, and its incoming and outgoing neighbours.
  - `Transition` holds one source, one destination and its attributes.
- `tools/ModelBuilder.py` holds `ModelBuilder.parse`, a token queue with a
  count of pending actionable tokens, and the `StateModelBuilder`
  handlers. The handlers pop the tokens of one declaration and keep a stack
  of open superstates.

The Dafny modules follow that split:

- `base.dfy` (`Base`): options, results, the exceptions the source raises,
  Python truthiness, and an order-keeping `Filter` with its lemmas. `Filter`
  stands for list comprehensions and append loops.
- `states.dfy` (`States`) models `State`, `Transition` and the diagram a
  superstate owns, as values. The local `is_start_state` and `is_end_state`
  are the predicates `State.IsStartState` and `State.IsEndState`.
- `state_model.dfy` (`StateModel`) models `StateDiagram`.
  - It is a class whose fields are updated in place. Every State is reached
    through its name, so an in-place update of a State becomes an update of
    its entry in `stateNames`.
  - `Valid()` says the registry is a tree ordered by registration. Each state
    is registered under its own name, children name their parent, substate
    counters match their lists, and top-level states are root nodes.
  - Every operation keeps `Valid()`, on success and on failure alike. The
    one exception is `add_state` of a new state that names itself as its
    parent (see "Left out").
  - `Wired` ties every state's `source` and `destination` lists to the
    recorded transitions. `add_state`, `add_state_attr` and a successful
    `add_transition` keep it. Under it, `get_start_states` returns exactly
    the top-level states that no transition enters, and `get_end_states`
    exactly those that no transition leaves.
- `flattening.dfy` (`Flattening`) specifies `flatten_graph` as functions on
  values. It proves the result is a proper graph and how one collapse wires
  a superstate's neighbours to the inside. It also works a concrete diagram
  through to its flat graph.
- `model_builder.dfy` (`ModelBuilder`) models `StateModelBuilder` as a class
  with the queue `q`, the superstate stack and the diagram.
  - `Acts(q)` lists the tokens of `q` that have a handler. The count of
    pending actionable tokens always equals the length of `Acts` of the
    queue.
  - Each handler states what it does to the queue, the stack and the
    diagram as a predicate on before/after snapshots (`StateHandled`,
    `EndHandled`, `TransHandled`, gathered in `Handled`). `Dispatch` runs
    the head's handler and promises `Handled`.
  - A builder move (`Step`) is one of three things. A token is queued
    (`Queued`), a head without a handler is dropped (`Dropped`), or the
    head's handler runs and returns normally (`Ran`, which holds
    `Handled`). A chain of moves is a list of snapshots, each one move on
    from the one before it.
  - `Feed`, `Advance`, `Read`, `Drain` and `Parse` return the ghost list
    `moves` of the snapshots they went through. Their contracts state
    `Reading` or `Parsed`. On success `moves` is a chain that queued the
    stream's tokens that are not ignored, in order, and ran the heads of
    the ghost `trace`. On failure `moves` is such a chain, ended by a
    handler that raised (`Raised`, a failing `Handled`); that head ends
    `trace`.
  - On success from an empty queue, `trace` is exactly the actionable
    tokens of the stream, in order. On failure, `trace` is a prefix of
    the actionable tokens of the queue and stream, and the parse stops
    there.
  - Every open superstate stays registered, and the diagram stays wired,
    so the builder never raises NameError.

## Model

| member | source | states |
|---|---|---|
| Base.Filter | tools/StateModel.py:48 | a comprehension is never longer than the list it filters |
| Base.FilterMembers | tools/StateModel.py:48 | an element is kept iff it is in the list and passes the test |
| Base.FilterAppend | tools/StateModel.py:116-121 | filtering a concatenation filters each part in order: the invariant of an append loop |
| Base.FilterAll | tools/StateModel.py:45 | a test every element passes keeps the whole list |
| Base.FilterFilter | tools/StateModel.py:46-51 | filtering by one test and then another equals filtering by their conjunction |
| Base.FilterCongruent | tools/StateModel.py:46-51 | two tests that agree on the list's elements keep the same sub-list |
| Base.NoDuplicatesAppend | tools/StateModel.py:78 | appending a name not yet listed keeps a list free of repeats |
| States.Scope.AddEdge | tools/StateModel.py:109 | `add_edge` adds the edge and both endpoints as nodes, nothing else |
| States.State.AddAttribute | tools/StateModel.py:173-174 | the attribute is appended at the end; every other field is unchanged |
| States.State.AddSubstate | tools/StateModel.py:176-182 | the child becomes a node and the last entry of the owned top-level list; the counter rises by one and keeps matching that list |
| States.State.AddSource | tools/StateModel.py:222-226 | the neighbour is appended to `source`, so the state is no longer a start state |
| States.State.AddDestination | tools/StateModel.py:228-232 | the neighbour is appended to `destination`, so the state is no longer an end state |
| States.NewState | tools/StateModel.py:156-171 | a new state has its name and parent, no attributes, an empty diagram, no neighbours, and is inactive, a start state and an end state |
| States.NewTransition | tools/StateModel.py:100-105 | one source and one destination; the attribute is recorded iff it is truthy |
| StateModel.SourceName | tools/StateModel.py:89 | `[*]` as a source becomes `START`, any other name is kept |
| StateModel.DestName | tools/StateModel.py:90 | `[*]` as a destination becomes `END`, any other name is kept |
| StateModel.DeclaredNew | tools/StateModel.py:70-81 | for a new name the attribute lands on the freshly created state |
| StateModel.DeclaredExisting | tools/StateModel.py:68-69 | a registered name creates nothing: only a truthy attribute is appended to it |
| StateModel.ConnectedLinks | tools/StateModel.py:92-114 | after `add_transition` both endpoints are registered; the destination follows the source, which is not an end state, and the reverse; other states are untouched |
| StateModel.FoldStep | tools/StateModel.py:136-150 | each pass of the flattening loop visits the next top-level state |
| StateModel.VisitSuperstate | tools/StateModel.py:138-150 | visiting a superstate collapses it into its flattened diagram |
| StateModel.FilterBoth | tools/StateModel.py:45-52 | filtering by source and then by destination is the single conjunctive filter |
| StateModel.CoherentUpdate | tools/StateModel.py:104-114 | rewriting a state's attributes, neighbours or graph edges keeps the diagram consistent |
| StateModel.NestedUpdate | tools/StateModel.py:109 | adding an edge inside a superstate keeps the nesting tree |
| StateModel.ChildrenLaterKept | tools/StateModel.py:109 | the nesting order survives changes that keep every top-level list and grow the node sets |
| StateModel.TreeUpdate | tools/StateModel.py:104-114 | such an update keeps names, the root list and the parent links |
| StateModel.ParentsUpdate | tools/StateModel.py:113-114 | such an update keeps every child's parent link |
| StateModel.CoherentNewRoot | tools/StateModel.py:71-78 | a new parentless state appended to the top-level list keeps the diagram consistent |
| StateModel.NestedNewLeaf | tools/StateModel.py:71-72 | a newly registered state with an empty diagram extends the nesting tree |
| StateModel.TreeNewRoot | tools/StateModel.py:76-78 | a new root node is listed once, as a node, with no truthy parent |
| StateModel.ParentsNewLeaf | tools/StateModel.py:71-72 | a new state breaks no parent link |
| StateModel.CoherentNewChild | tools/StateModel.py:71-75 | a new state added under a registered parent keeps the diagram consistent |
| StateModel.NestedNewChild | tools/StateModel.py:74-75 | the child is registered after its parent and listed once in the parent's diagram |
| StateModel.TreeNewChild | tools/StateModel.py:74-75 | the parent's counter keeps matching its list, and the root list is unchanged |
| StateModel.ParentsNewChild | tools/StateModel.py:74-75 | the new child names the parent it is listed under |
| StateModel.CoherentOrphan | tools/StateModel.py:71-75 | a new state whose parent is unregistered, as left behind by the NameError, keeps the diagram consistent |
| StateModel.UniqueNewChild | tools/StateModel.py:74-75 | the parent's diagram still lists each state once |
| StateModel.LaterNewChild | tools/StateModel.py:74-75 | the new child is registered after the parent whose diagram lists it |
| StateModel.WiredKeep | tools/StateModel.py:80-85 | changing a state's attributes, substates or edges keeps its neighbour lists wired to the transitions |
| StateModel.WiredFresh | tools/StateModel.py:71-72 | a newly registered state has no neighbours and no transition names it |
| StateModel.WiredDeclared | tools/StateModel.py:62-81 | `add_state` keeps the diagram wired, whether it completes or raises NameError |
| StateModel.WiredLinked | tools/StateModel.py:100-114 | recording a transition and linking its ends appends the source to the destination's `source` list and the destination to the source's `destination` list, matching the transitions |
| StateModel.WiredConnected | tools/StateModel.py:87-114 | a successful `add_transition` keeps the diagram wired |
| StateModel.IntoEmpty | tools/StateModel.py:113-114 | the transitions give a state no incoming neighbour iff none of them enters it |
| StateModel.OutOfEmpty | tools/StateModel.py:113-114 | the transitions give a state no outgoing neighbour iff none of them leaves it |
| StateModel.StartWired | tools/StateModel.py:116-121 | in a wired diagram, `is_start_state()` holds iff no recorded transition enters the state |
| StateModel.EndWired | tools/StateModel.py:123-128 | in a wired diagram, `is_end_state()` holds iff no recorded transition leaves the state |
| StateModel.StateDiagram.constructor | tools/StateModel.py:18-26 | a new diagram is empty, consistent and wired |
| StateModel.StateDiagram.GetState | tools/StateModel.py:28-38 | a State object is returned as it is; a name resolves iff it is registered; otherwise NameError |
| StateModel.StateDiagram.GetTransitions | tools/StateModel.py:40-52 | NameError iff a truthy filter names no registered state; otherwise the transitions matching every truthy filter, in order; all transitions without filters |
| StateModel.StateDiagram.CheckStateExists | tools/StateModel.py:54-60 | a name exists iff `get_state` resolves it; a State object exists iff it is a node of the root graph |
| StateModel.StateDiagram.GetStartStates | tools/StateModel.py:116-121 | exactly the top-level states whose `source` list is empty, in top-level order; in a wired diagram, exactly the top-level states that no recorded transition enters |
| StateModel.StateDiagram.GetEndStates | tools/StateModel.py:123-128 | exactly the top-level states whose `destination` list is empty, in top-level order; in a wired diagram, exactly the top-level states that no recorded transition leaves |
| StateModel.StateDiagram.AddState | tools/StateModel.py:62-81 | NameError iff a new name has an unregistered truthy parent, and then the name is registered anyway; an existing name only gains the attribute; a new root is appended once to the top-level list and the root graph; the diagram stays consistent on both outcomes, except for a new state that is its own parent, and stays wired |
| StateModel.StateDiagram.DeclareNew | tools/StateModel.py:70-81 | the creation branch of `add_state`, with the same outcome and new state; consistent on both outcomes |
| StateModel.StateDiagram.AppendAttribute | tools/StateModel.py:80-81 | the attribute is appended to the registered state; nothing else changes |
| StateModel.StateDiagram.RegisterNew | tools/StateModel.py:71-78 | a new name is registered, then becomes a root or a child of its parent; consistent on both outcomes |
| StateModel.StateDiagram.RegisterRoot | tools/StateModel.py:76-78 | a parentless state becomes a root node appended once to the top-level list |
| StateModel.StateDiagram.RegisterChild | tools/StateModel.py:74-75 | the parent's diagram gains the child and its counter rises by one; an unregistered parent raises NameError after the child was registered, and the diagram stays consistent |
| StateModel.StateDiagram.AddStateAttr | tools/StateModel.py:83-85 | NameError iff a name is unregistered; otherwise the attribute is appended without a truthiness test; the diagram stays consistent and wired |
| StateModel.StateDiagram.AddTransition | tools/StateModel.py:87-114 | exactly one transition is appended; missing endpoints become roots; the edge goes to the parent's diagram or the root graph; both endpoints are linked; NameError iff the truthy parent is unregistered; a successful call keeps the diagram wired |
| StateModel.StateDiagram.RegisterEndpoints | tools/StateModel.py:92-94 | each missing endpoint is added as a root state |
| StateModel.StateDiagram.RegisterEndpoint | tools/StateModel.py:93-94 | `check_state_exists` decides: a missing name is added once as a root; a registered one is untouched |
| StateModel.StateDiagram.Connect | tools/StateModel.py:107-114 | the edge is placed by the parent's truthiness and the endpoints are linked |
| StateModel.StateDiagram.AddInnerEdge | tools/StateModel.py:108-109 | the edge goes into the parent's diagram only |
| StateModel.StateDiagram.AddRootEdge | tools/StateModel.py:110-111 | the edge and its endpoints go into the root graph only |
| StateModel.StateDiagram.Link | tools/StateModel.py:113-114 | the source lists the destination and the destination lists the source |
| StateModel.StateDiagram.FlattenGraph | tools/StateModel.py:130-151 | the result is the flattening of the root diagram and a proper graph |
| StateModel.StateDiagram.FlattenScopeOf | tools/StateModel.py:135-151 | the loop computes the flattening of the given diagram |
| StateModel.StateDiagram.VisitState | tools/StateModel.py:137-150 | a superstate is collapsed into its recursively flattened diagram; any other state leaves the graph alone |
| Flattening.Induced | tools/StateModel.py:135 | `subgraph(top_level)` keeps the listed nodes and the edges between them |
| Flattening.SubstatesFlattenable | tools/StateModel.py:140 | the diagram of a registered state can itself be flattened |
| Flattening.CollapseWellFormed | tools/StateModel.py:142-150 | a collapse keeps every edge between nodes |
| Flattening.CollapseWiresEntriesAndExits | tools/StateModel.py:142-150 | the superstate is gone; every source reaches every start state inside; every end state inside reaches every destination; the inside's edges and the other edges are kept; nothing else appears |
| Flattening.FlattenWellFormed | tools/StateModel.py:130-151 | flattening yields a proper graph |
| Flattening.FoldWellFormed | tools/StateModel.py:136-150 | the loop keeps the graph proper |
| Flattening.FlattenPlainScope | tools/StateModel.py:135-138 | a diagram without superstates flattens to its induced graph |
| Flattening.FoldPlain | tools/StateModel.py:136-138 | plain states leave the graph alone |
| Flattening.ExampleFlattens | tools/StateModel.py:130-151 | `Idle --> Active --> [*]` with `Running` inside `Active` flattens to nodes `Idle`, `Running`, `END` and edges `Idle -> Running`, `Running -> END` |
| ModelBuilder.Acts | tools/ModelBuilder.py:49-52 | a queue holds no more actionable tokens than tokens |
| ModelBuilder.ActsConcat | tools/ModelBuilder.py:49-52 | the actionable tokens of a queue with tokens appended are its own followed by those appended, so queueing a token adds it iff it has a handler |
| ModelBuilder.ActsSkip | tools/ModelBuilder.py:105-144 | tokens without handlers add no actionable token |
| ModelBuilder.ActsTail | tools/ModelBuilder.py:55-58 | consuming an actionable head and tokens without handlers removes exactly that head from the actionable tokens |
| ModelBuilder.ActsPrefix | tools/ModelBuilder.py:42-52 | the actionable tokens of the stream read so far start those of the whole stream |
| ModelBuilder.Top | tools/ModelBuilder.py:112 | `superstate_stack[-1]` is an entry of the stack |
| ModelBuilder.OpenNames | tools/ModelBuilder.py:97 | the innermost open superstate is among the open names |
| ModelBuilder.OpenPush | tools/ModelBuilder.py:123 | opening a superstate adds exactly its name |
| ModelBuilder.AttrAt | tools/ModelBuilder.py:109-114 | the attribute is looked for right after the name or after the `{` |
| ModelBuilder.StateSpan | tools/ModelBuilder.py:105-115 | `assign_state` consumes between one and three tokens, never more than are queued |
| ModelBuilder.TransSpan | tools/ModelBuilder.py:129-144 | `assign_trans` consumes two or three tokens, never more than are queued |
| ModelBuilder.PlaceSteps | tools/ModelBuilder.py:108-112 | after the name and an optional `{`, the queue is where the attribute is looked for |
| ModelBuilder.AttrSteps | tools/ModelBuilder.py:114-115 | taking the attribute leaves the queue after the whole declaration |
| ModelBuilder.StateSpanActs | tools/ModelBuilder.py:105-115 | a successful `assign_state` removes exactly its head from the actionable tokens |
| ModelBuilder.TransSpanActs | tools/ModelBuilder.py:129-144 | a successful `assign_trans` removes exactly its head from the actionable tokens |
| ModelBuilder.DeclaredKeys | tools/StateModel.py:62-81 | `add_state` under a registered parent registers the name and keeps every other name |
| ModelBuilder.Raisable | tools/ModelBuilder.py:101-144 | no handler raises NameError or TypeError; a token kind can raise something iff it has a handler |
| ModelBuilder.HandledShrinks | tools/ModelBuilder.py:55-57 | a handler that returns normally ran on an actionable head and consumed at least that head |
| ModelBuilder.RanStep | tools/ModelBuilder.py:55-58 | a handler that returns normally is one builder move; it runs its head and queues nothing |
| ModelBuilder.DropStep | tools/ModelBuilder.py:68-69 | popping a head without a handler is one builder move that runs and queues nothing |
| ModelBuilder.QueueStep | tools/ModelBuilder.py:52 | appending a token is one builder move that queues exactly that token |
| ModelBuilder.HandledRaised | tools/ModelBuilder.py:55-57 | a handler that raised is a `Raised` failure of the head's handler |
| ModelBuilder.RaisedEffect | tools/ModelBuilder.py:101-144 | a handler that raised lost no registered name and recorded no transition |
| ModelBuilder.StepEffect | tools/ModelBuilder.py:101-144 | one move only adds names; a state name whose handler ran is registered; transitions grow by one exactly when a transition source ran |
| ModelBuilder.StepActs | tools/ModelBuilder.py:52-58 | one move: the actionable tokens queued before, plus the one queued, are the head run, followed by those queued after |
| ModelBuilder.ChainJoin | tools/ModelBuilder.py:42-69 | moves laid end to end are moves; their heads and queued tokens are those of each part, in order |
| ModelBuilder.ChainConcat | tools/ModelBuilder.py:42-69 | moves laid end to end are moves ending where the second ones end |
| ModelBuilder.HeadsConcat | tools/ModelBuilder.py:42-69 | the heads run along joined moves are those of each part, in order |
| ModelBuilder.FedConcat | tools/ModelBuilder.py:42-69 | the tokens queued along joined moves are those of each part, in order |
| ModelBuilder.ChainStep | tools/ModelBuilder.py:42-69 | one more move extends the moves, their heads and their queued tokens |
| ModelBuilder.HaltStep | tools/ModelBuilder.py:55-57 | moves followed by a handler that raised are a halted run whose trace ends with that head |
| ModelBuilder.HaltJoin | tools/ModelBuilder.py:42-69 | moves followed by a halted run are a halted run, with the first moves' heads in front |
| ModelBuilder.HaltFed | tools/ModelBuilder.py:42-69 | the tokens queued before the failure are those of the first moves and those of the second before its failure |
| ModelBuilder.ChainEffect | tools/ModelBuilder.py:42-69 | along any moves names only grow, every state name whose handler ran is registered, and one transition is recorded per transition source run |
| ModelBuilder.ChainActs | tools/ModelBuilder.py:42-69 | along any moves, the actionable tokens queued at the start and on the way are the heads run, in order, followed by those still queued |
| ModelBuilder.HaltedFacts | tools/ModelBuilder.py:42-69 | a halted run's trace is non-empty, starts the actionable tokens queued at the start and on the way, and ends with a head whose handler can raise the error; names and transitions were only added |
| ModelBuilder.OnlyDropped | tools/ModelBuilder.py:64-69 | moves that ran no handler and queued nothing only popped heads: the queue left is a suffix and nothing else changed |
| ModelBuilder.Sources | tools/ModelBuilder.py:129-144 | the transition sources of a list are no more than its tokens, all of them transition sources |
| ModelBuilder.SourcesConcat | tools/ModelBuilder.py:129-144 | the transition sources of two lists laid end to end are those of each, in order |
| ModelBuilder.Kept | tools/ModelBuilder.py:46-52 | the loop of `parse` queues no ignored token and no more tokens than the stream holds |
| ModelBuilder.KeptPrefix | tools/ModelBuilder.py:42-52 | the tokens queued from a prefix of the stream start those queued from the whole stream |
| ModelBuilder.KeptActs | tools/ModelBuilder.py:46-52 | dropping ignored tokens keeps exactly the stream's actionable tokens |
| ModelBuilder.ActsHas | tools/ModelBuilder.py:49-52 | every token of the stream that has a handler is among its actionable tokens |
| ModelBuilder.NoMoves | tools/ModelBuilder.py:47-48 | an ignored token makes no move: nothing queued and nothing run |
| ModelBuilder.QueuedOnly | tools/ModelBuilder.py:52-60 | a token queued without a handler running is a one-move read that queued that token and ran nothing |
| ModelBuilder.QueuedThenRan | tools/ModelBuilder.py:52-58 | a token queued and then the head's handler run is a two-move read that queued that token and ran the head, or ended with the head's failure |
| ModelBuilder.ReadJoin | tools/ModelBuilder.py:42-69 | a read that returned normally followed by another read is one read that queued both lots of tokens and ran both lots of heads |
| ModelBuilder.FeedJoin | tools/ModelBuilder.py:42-60 | feeding the next token of the stream extends the read of the tokens before it to the tokens up to it |
| ModelBuilder.ReadOn | tools/ModelBuilder.py:64-69 | a move that queues nothing after a successful read extends the read by the head it ran, if any |
| ModelBuilder.DrainStops | tools/ModelBuilder.py:64-67 | a handler that raises while draining ends the drain's moves with its head, which follows the heads run and starts the queue's actionable tokens |
| ModelBuilder.DrainDone | tools/ModelBuilder.py:64-69 | a drain that returned normally ran the first of the queue's actionable tokens, followed by those still queued |
| ModelBuilder.ReadThenDrain | tools/ModelBuilder.py:42-69 | the moves of the reading loop followed by those of the drain queued what the reading loop queued, on either outcome of the drain |
| ModelBuilder.ParsedFacts | tools/ModelBuilder.py:35-72 | a successful parse: heads run plus what stays queued are the actionable tokens of queue and stream; from an empty queue, exactly the stream's, each state name registered and one transition per source |
| ModelBuilder.ParseFailFacts | tools/ModelBuilder.py:35-72 | a failed parse: the trace is a prefix of the actionable tokens of queue and stream, ending with a head that can raise the error |
| ModelBuilder.ParseOutcome | tools/ModelBuilder.py:35-72 | the moves of a read of the stream, and on success a queue holding as many actionable tokens as at the start, are those of a parse as `Parsed` states |
| ModelBuilder.StrayHeadDrained | tools/ModelBuilder.py:64-69 | the corrected drain from `StrayQueue` with one state name pending returns normally and declares `Idle`, whatever moves it makes |
| ModelBuilder.StrayHead | tools/ModelBuilder.py:64-69 | on `StrayQueue` the drain as written raises TypeError; the corrected drain returns normally and `Idle` is declared |
| ModelBuilder.StateModelBuilder.constructor | tools/ModelBuilder.py:83-99 | the queue is empty, the stack holds only the root, and the diagram is new and empty |
| ModelBuilder.StateModelBuilder.LookupState | tools/ModelBuilder.py:101-103 | always NotImplementedError |
| ModelBuilder.StateModelBuilder.AddUnder | tools/ModelBuilder.py:112 | the state is declared under the innermost open superstate |
| ModelBuilder.StateModelBuilder.StartSuperstate | tools/ModelBuilder.py:120-123 | the `{` is consumed, the state is declared under the innermost superstate and pushed; IndexError on an empty queue or stack |
| ModelBuilder.StateModelBuilder.TakeStateAttr | tools/ModelBuilder.py:114-118 | IndexError on an empty queue; a state attribute at the head is popped and appended to the state |
| ModelBuilder.StateModelBuilder.Place | tools/ModelBuilder.py:109-112 | a `{` opens a superstate; otherwise the state is declared in place |
| ModelBuilder.StateModelBuilder.AssignState | tools/ModelBuilder.py:105-115 | `StateHandled`: fails only with IndexError, exactly when the queue is too short or the stack empty; on success the declaration's tokens are consumed, the stack is pushed iff `{` follows, and the registry gains the declared state and its attribute |
| ModelBuilder.StateModelBuilder.EndSuperstate | tools/ModelBuilder.py:125-127 | `EndHandled`: one token and one stack entry are popped; IndexError on an empty queue or stack |
| ModelBuilder.StateModelBuilder.AssignTrans | tools/ModelBuilder.py:129-144 | `TransHandled`: AttributeError iff a source is not followed by a destination; on failure no transition and no diagram change; on success one transition with the optional attribute inside the innermost superstate |
| ModelBuilder.StateModelBuilder.AddInside | tools/ModelBuilder.py:141-144 | `add_transition` with the innermost open superstate as parent |
| ModelBuilder.StateModelBuilder.Dispatch | tools/ModelBuilder.py:55-58 | `Handled`: the head's own handler runs, with that handler's effect on queue, stack and diagram; it raises only what that handler can raise, never NameError; on success exactly the head leaves the actionable tokens |
| ModelBuilder.StateModelBuilder.Feed | tools/ModelBuilder.py:42-60 | ignored tokens are dropped; others are queued at the back and counted iff actionable; when more than one is pending and the head is actionable, the head's handler runs on the queue with the token at its back and the count drops by one on success; otherwise only the queue and count change; its moves are a `Reading` that queued the token unless ignored and ran the head that fired, if any |
| ModelBuilder.StateModelBuilder.Advance | tools/ModelBuilder.py:42-60 | one pass of the reading loop: the moves made from the start of the read are a `Reading` that queued the kept tokens up to and including this one; a failure ends them with the handler that raised |
| ModelBuilder.StateModelBuilder.Read | tools/ModelBuilder.py:40-60 | the reading loop: its moves are a `Reading` that queued the stream's kept tokens (on failure, those of a prefix of the stream); the count equals the pending actionable tokens; a failure stops it at once |
| ModelBuilder.StateModelBuilder.Drain | tools/ModelBuilder.py:64-69 | the corrected drain: its moves are a `Reading` that queued nothing; on success the handlers ran on exactly the first `pending` actionable tokens of the queue, in order; a head without a handler is dropped; a failure ends the trace with the head that raised; never TypeError |
| ModelBuilder.StateModelBuilder.DrainAsWritten | tools/ModelBuilder.py:64-69 | with a token pending and a head without a handler, the head is popped and TypeError is raised |
| ModelBuilder.StateModelBuilder.Finish | tools/ModelBuilder.py:62-72 | after a successful read, draining completes the moves of a parse as `Parsed` states |
| ModelBuilder.StateModelBuilder.Parse | tools/ModelBuilder.py:35-72 | `Parsed` over the moves it made: reads the stream, then drains with the corrected `Drain` (the source raises TypeError at line 69); a successful parse from an empty queue ran handlers on exactly the actionable tokens of the stream, in order; a failed one stops at the first handler that raises, which ends the trace, never with NameError or TypeError; registered names and transitions only grow |

## Left out

- The networkx `DiGraph` base class is replaced by a node set and an edge set. The `attr_dict` payload on edges is not kept.
- The pygments token types are replaced by the datatype `Kind`. `Kind.Other` stands for any type other than the ten named ones.
- Logging, the `print` in `get_state`, `build_state_diagram` (which reads a file) and the `__main__` block are I/O.
- The class-level `action_tokens` dict, which every constructor updates, is modelled as a fixed table (`Actionable`).
- `state_aliases` and the unused `states` list hold nothing the core uses.
- `activate`, `deactivate`, `is_active` and `get_substate_names` are flag setters and a projection. The `active` field is kept but never changed.
- The `global_scope` form of `is_start_state` and `is_end_state` cannot run as written. It passes a misspelled keyword, and `parent` is a name string, not a State. Only the local form is modelled.
- `check_state_exists` on a name is modelled as membership in `state_names`. That is what it computes for the unicode names the lexer yields. Its operator precedence makes any Python 2 `str` count as registered, and that case is not modelled.
- StateModel.StateDiagram.GetState: a State object that was never registered is returned as it is. The model identifies States by name, so it cannot tell such an object from a registered one.
- StateModel.StateDiagram.AddState: `Valid()` is not promised when a new state names itself as its parent. The source then makes the state its own substate, and no registration order is consistent with that.
- StateModel.StateDiagram.FlattenGraph: the source iterates the nodes in hash order. The model visits the top-level states in declaration order. The result can depend on the order when one superstate is a neighbour of another. The model also does not promise that no superstate is left in the result.
- The `TypeError` raised when `add_substate`, `add_source` or `add_destination` gets something other than a State cannot arise. Every call passes a State.
- StateModel.StateDiagram.AddTransition: `Wired` is not promised after NameError. The source has then recorded the transition but raises before linking its ends. The builder never meets this case, because its parent is always registered.
- ModelBuilder.StateModelBuilder.Parse: the final diagram is tied to the stream one move at a time. `moves` is a chain of builder moves, each run handler holding its `Handled` effect, and `trace` lists the heads run. The model does not state the final diagram as one function of the whole stream. On failure it states that the tokens queued before the failing handler start the stream's kept tokens, not which prefix of the stream was read.
- ModelBuilder.StateModelBuilder.AssignState: after an exception, the contract states only `Valid()` and that no name is lost. `parse` stops at the first exception anyway.

## Findings

| source | as written | input that shows it | evidently intended | confidence | as-written member | corrected member |
|---|---|---|---|---|---|---|
| tools/ModelBuilder.py:69 | the drain loop's `else` branch pops the head, then concatenates it (a `(type, value)` pair) to a string, which raises TypeError | a stray state attribute before the only state name, `(StateAttr, "x"), (StateName, "Idle"), (StateAttr, "y")` (`StrayQueue`): with only one token pending no handler runs while reading, so the drain meets the stray head first | log the stray head, drop it and go on draining, so `Idle` is declared | not executed; Python 2 rejects `str + tuple`, and whether the lexer emits such a stream is outside this model | ModelBuilder.StateModelBuilder.DrainAsWritten, ModelBuilder.StrayHead | ModelBuilder.StateModelBuilder.Drain, ModelBuilder.StrayHeadDrained |
