/** `ModelBuilder` and `StateModelBuilder` of tools/ModelBuilder.py: a
    builder draws (token type, value) pairs from a lexer, queues them, and
    lets the handler registered for the token at the head of the queue
    consume it together with the tokens that complete it. The state
    builder's handlers fill a `StateDiagram`, keeping a stack of the
    superstates currently open. */
module ModelBuilder {
  import opened Base
  import opened States
  import opened StateModel

  /** The token types the builder tells apart: the two it ignores, the
      eight of the PlantUML lexer, and any other type, which is queued but
      has no handler. */
  datatype Kind =
    | Text | Error
    | StateName | StateAlias | StateAttr | SuperstateStart | SuperstateEnd
    | TransSource | TransDest | TransAttr
    | Other

  /** One (token type, value) pair of the lexer's stream. */
  datatype Token = Token(kind: Kind, value: string)

  /** `ignored_tokens`: never queued. */
  predicate Ignored(k: Kind) {
    k == Text || k == Error
  }

  /** The keys of `action_tokens`: the kinds with a handler. */
  predicate Actionable(k: Kind) {
    k == StateName || k == StateAlias || k == SuperstateEnd || k == TransSource
  }

  /** Queueing `t` behind `q` with `pending` actionable tokens already
      queued makes the head's handler run: `t` is kept, more than one
      actionable token is then pending, and the head has a handler. */
  predicate Fires(q: seq<Token>, t: Token, pending: nat) {
    && !Ignored(t.kind)
    && pending + (if Actionable(t.kind) then 1 else 0) > 1
    && Actionable((q + [t])[0].kind)
  }

  /** `t` if it has a handler, else nothing. */
  function Lead(t: Token): seq<Token> {
    if Actionable(t.kind) then [t] else []
  }

  /** The tokens of `q` that have a handler, in queue order. */
  function Acts(q: seq<Token>): (r: seq<Token>)
    ensures |r| <= |q|
  {
    if q == [] then [] else Lead(q[0]) + Acts(q[1..])
  }

  /** The actionable tokens of two queues laid end to end. */
  lemma {:induction false} ActsConcat(a: seq<Token>, b: seq<Token>)
    ensures Acts(a + b) == Acts(a) + Acts(b)
  {
    if a == [] {
      assert a + b == b;
    } else {
      calc {
        Acts(a + b);
        Lead(a[0]) + Acts((a + b)[1..]);
        { assert (a + b)[1..] == a[1..] + b; }
        Lead(a[0]) + Acts(a[1..] + b);
        { ActsConcat(a[1..], b); }
        Lead(a[0]) + (Acts(a[1..]) + Acts(b));
        Acts(a) + Acts(b);
      }
    }
  }

  /** Tokens without handlers contribute nothing. */
  lemma {:induction false} ActsSkip(q: seq<Token>, k: nat, n: nat)
    requires k <= n <= |q|
    requires forall i :: k <= i < n ==> !Actionable(q[i].kind)
    ensures Acts(q[k..]) == Acts(q[n..])
    decreases n - k
  {
    if k < n {
      assert q[k..][1..] == q[k+1..];
      ActsSkip(q, k + 1, n);
    }
  }

  /** A handler that consumes an actionable head and `n - 1` tokens without
      handlers after it removes exactly that head from the actionable
      tokens. */
  lemma ActsTail(q: seq<Token>, n: nat)
    requires 1 <= n <= |q| && Actionable(q[0].kind)
    requires forall i :: 1 <= i < n ==> !Actionable(q[i].kind)
    ensures Acts(q) == [q[0]] + Acts(q[n..])
  {
    ActsSkip(q, 1, n);
  }

  /** The head whose handler runs when `t` is fed, if any. */
  function Fired(q: seq<Token>, t: Token, pending: nat): seq<Token> {
    if Fires(q, t, pending) then [(q + [t])[0]] else []
  }

  /** `superstate_stack[-1]`: the innermost open superstate. */
  function Top(stack: seq<Option<Name>>): (r: Option<Name>)
    requires stack != []
    ensures r in stack
  {
    stack[|stack| - 1]
  }

  /** The names of the open superstates on `stack`. */
  function OpenNames(stack: seq<Option<Name>>): (r: set<Name>)
    ensures stack != [] && Top(stack).Some? ==> Top(stack).value in r
  {
    if stack == [] then {}
    else OpenNames(stack[..|stack| - 1]) + (if Top(stack).Some? then {Top(stack).value} else {})
  }

  /** Opening a superstate adds its name to the open names. */
  lemma OpenPush(stack: seq<Option<Name>>, n: Name)
    ensures OpenNames(stack + [Some(n)]) == OpenNames(stack) + {n}
  {
    assert (stack + [Some(n)])[..|stack|] == stack;
  }

  /** `assign_state` finds every token it peeks at: the state name, the
      token after it and, when that opens a superstate, the one after that. */
  predicate StateQueued(q: seq<Token>) {
    |q| >= 2 && (q[1].kind == SuperstateStart ==> |q| >= 3)
  }

  /** Where `assign_state` looks for a state attribute: right after the
      name, or after the `{` that opens a superstate. */
  function AttrAt(q: seq<Token>): (k: nat)
    requires |q| >= 2
    ensures k <= |q| && (StateQueued(q) ==> k < |q|)
  {
    if q[1].kind == SuperstateStart then 2 else 1
  }

  /** The state attribute at the head of `q`, if any. */
  function HeadAttr(q: seq<Token>): Option<string>
    requires q != []
  {
    if q[0].kind == StateAttr then Some(q[0].value) else None
  }

  /** The state attribute `assign_state` consumes, if any. */
  function StateAttrOf(q: seq<Token>): Option<string>
    requires StateQueued(q)
  {
    HeadAttr(q[AttrAt(q)..])
  }

  /** The registry after `add_state_attr(name, attr)` for a registered
      name: the attribute is appended to the state's list. */
  function AttrAdded(m: map<Name, State>, name: Name, attr: Option<string>): map<Name, State> {
    if attr.Some? && name in m then m[name := m[name].AddAttribute(attr.value)] else m
  }

  /** How many tokens a successful `assign_state` consumes. */
  function StateSpan(q: seq<Token>): (n: nat)
    requires StateQueued(q)
    ensures 1 <= n <= |q| && n <= 3
  {
    AttrAt(q) + (if StateAttrOf(q).Some? then 1 else 0)
  }

  /** The transition attribute `assign_trans` consumes, if any. */
  function TransAttrOf(q: seq<Token>): Option<string>
    requires |q| >= 2
  {
    if |q| > 2 && q[2].kind == TransAttr then Some(q[2].value) else None
  }

  /** How many tokens a successful `assign_trans` consumes. */
  function TransSpan(q: seq<Token>): (n: nat)
    requires |q| >= 2
    ensures 2 <= n <= |q| && n <= 3
  {
    if TransAttrOf(q).Some? then 3 else 2
  }

  /** The queue once `assign_state` has popped the name and placed the
      state: a `{` after the name is consumed too. */
  lemma PlaceSteps(q: seq<Token>, q0: seq<Token>, q1: seq<Token>)
    requires |q| >= 2 && q0 == q[1..]
    requires q1 == if q0[0].kind == SuperstateStart then q0[1..] else q0
    ensures q0[0] == q[1]
    ensures q1 == q[AttrAt(q)..]
    ensures StateQueued(q) <==> q1 != []
  {
  }

  /** The queue once `assign_state` has taken the state attribute. */
  lemma AttrSteps(q: seq<Token>, q1: seq<Token>, q2: seq<Token>)
    requires StateQueued(q) && q1 == q[AttrAt(q)..]
    requires q2 == if HeadAttr(q1).Some? then q1[1..] else q1
    ensures StateAttrOf(q) == HeadAttr(q1)
    ensures q2 == q[StateSpan(q)..]
  {
  }

  /** A successful `assign_state` handles exactly one actionable token,
      its head: the tokens after the name that it consumes have no
      handler. */
  lemma StateSpanActs(q: seq<Token>)
    requires StateQueued(q) && Actionable(q[0].kind)
    ensures Acts(q) == [q[0]] + Acts(q[StateSpan(q)..])
  {
    ActsTail(q, StateSpan(q));
  }

  /** A successful `assign_trans` handles exactly one actionable token. */
  lemma TransSpanActs(q: seq<Token>)
    requires |q| >= 2 && q[1].kind == TransDest && Actionable(q[0].kind)
    ensures Acts(q) == [q[0]] + Acts(q[TransSpan(q)..])
  {
    ActsTail(q, TransSpan(q));
  }

  /** The top-level names `add_state(name, parent)` appends. */
  function RootAdded(m: map<Name, State>, name: Name, parent: Option<Name>): seq<Name> {
    if name !in m && !Truthy(parent) then [name] else []
  }

  /** The root graph node `add_state(name, parent)` adds: a new name
      without a truthy parent. */
  function RootNode(m: map<Name, State>, name: Name, parent: Option<Name>): set<Name> {
    if name !in m && !Truthy(parent) then {name} else {}
  }

  /** `add_state` with a registered parent keeps every registered name and
      registers `name`. */
  lemma DeclaredKeys(m: map<Name, State>, name: Name, parent: Option<Name>)
    requires !Truthy(parent) || parent.value in m
    ensures Declared(m, name, parent, None).Keys == m.Keys + {name}
  {
  }

  /** What the builder's handlers read and change: the queue, the stack,
      and the registry, roots, transitions and root graph of the diagram. */
  datatype Snap = Snap(
    q: seq<Token>, stack: seq<Option<Name>>,
    names: map<Name, State>, roots: seq<Name>, transitions: seq<Transition>,
    nodes: set<Name>, edges: set<Edge>)

  /** The exceptions the handler of a token of kind `k` can raise: never
      NameError, since every name a handler looks up is registered, and
      never TypeError. */
  function Raisable(k: Kind): (r: set<Exception>)
    ensures NameError !in r && TypeError !in r
    ensures Actionable(k) <==> r != {}
  {
    match k
    case StateName => {IndexError}
    case StateAlias => {NotImplementedError}
    case SuperstateEnd => {IndexError}
    case TransSource => {IndexError, AttributeError}
    case _ => {}
  }

  /** `assign_state` took the builder from `a` to `b` with outcome `r`. */
  predicate StateHandled(a: Snap, b: Snap, r: Outcome)
    requires a.q != []
  {
    && (r.Pass? <==> StateQueued(a.q) && a.stack != [])
    && b.transitions == a.transitions && b.edges == a.edges
    && a.names.Keys <= b.names.Keys
    && a.nodes <= b.nodes <= a.nodes + {a.q[0].value}
    && (r.Pass? ==>
      var name, parent := a.q[0].value, Top(a.stack);
      && b.nodes == a.nodes + RootNode(a.names, name, parent)
      && b.q == a.q[StateSpan(a.q)..]
      && b.stack == a.stack + (if a.q[1].kind == SuperstateStart then [Some(name)] else [])
      && b.names == AttrAdded(Declared(a.names, name, parent, None), name, StateAttrOf(a.q))
      && b.roots == a.roots + RootAdded(a.names, name, parent))
  }

  /** `end_superstate` took the builder from `a` to `b` with outcome `r`. */
  predicate EndHandled(a: Snap, b: Snap, r: Outcome)
    requires a.q != []
  {
    && (r.Pass? <==> a.stack != [])
    && b.q == a.q[1..]
    && b.stack == (if r.Pass? then a.stack[..|a.stack| - 1] else a.stack)
    && b.names == a.names && b.roots == a.roots && b.transitions == a.transitions
    && b.nodes == a.nodes && b.edges == a.edges
  }

  /** `assign_trans` took the builder from `a` to `b` with outcome `r`. */
  predicate TransHandled(a: Snap, b: Snap, r: Outcome)
    requires a.q != []
  {
    && (r == Fail(AttributeError) <==> |a.q| >= 2 && a.q[1].kind != TransDest)
    && (r.Pass? <==> |a.q| >= 2 && a.q[1].kind == TransDest && a.stack != [])
    && (r.Fail? ==>
      && b.stack == a.stack && b.names == a.names && b.roots == a.roots && b.transitions == a.transitions
      && b.nodes == a.nodes && b.edges == a.edges)
    && (r.Pass? ==>
      var parent, s, d := Top(a.stack), SourceName(a.q[0].value), DestName(a.q[1].value);
      && b.q == a.q[TransSpan(a.q)..]
      && b.stack == a.stack
      && b.transitions == a.transitions + [NewTransition(s, d, TransAttrOf(a.q))]
      && (!Truthy(parent) || parent.value in Registered(Registered(a.names, s), d))
      && b.names == Connected(a.names, s, d, parent)
      && b.roots == RootsAfter(Registered(a.names, s), RootsAfter(a.names, a.roots, s), d)
      && b.nodes == a.nodes + NewNames(a.names, s, d) + (if Truthy(parent) then {} else {s, d})
      && b.edges == a.edges + (if Truthy(parent) then {} else {(s, d)}))
  }

  /** The handler registered for the head of `a.q` took the builder from
      `a` to `b` with outcome `r`; a head without a handler runs nothing. */
  predicate Handled(a: Snap, b: Snap, r: Outcome)
    requires a.q != []
  {
    && (r.Fail? ==> r.error in Raisable(a.q[0].kind))
    && match a.q[0].kind
      case StateName => StateHandled(a, b, r)
      case StateAlias => r.Fail? && b == a
      case SuperstateEnd => EndHandled(a, b, r)
      case TransSource => TransHandled(a, b, r)
      case _ => false
  }

  /** Prefixes of prefixes are prefixes. */
  lemma PrefixTrans(x: seq<Token>, y: seq<Token>, z: seq<Token>)
    requires x <= y && y <= z
    ensures x <= z
  {
    assert z[..|x|] == y[..|x|];
  }

  /** A common start keeps a prefix a prefix. */
  lemma PrefixExtend(a: seq<Token>, p: seq<Token>, q: seq<Token>)
    requires p <= q
    ensures a + p <= a + q
  {
    assert (a + q)[..|a + p|] == a + p;
  }

  /** The actionable tokens of a prefix start those of the whole. */
  lemma ActsPrefix(x: seq<Token>, y: seq<Token>)
    requires x <= y
    ensures Acts(x) <= Acts(y)
  {
    assert y == x + y[|x|..];
    ActsConcat(x, y[|x|..]);
  }

  /** A token is queued behind `a.q` and nothing else changes. */
  predicate Queued(a: Snap, b: Snap) {
    |b.q| == |a.q| + 1 && b == a.(q := a.q + [b.q[|a.q|]])
  }

  /** A head without a handler leaves the queue and nothing else changes. */
  predicate Dropped(a: Snap, b: Snap) {
    a.q != [] && !Actionable(a.q[0].kind) && b == a.(q := a.q[1..])
  }

  /** The handler of the head of `a.q` ran and returned normally. */
  predicate Ran(a: Snap, b: Snap) {
    a.q != [] && Actionable(a.q[0].kind) && |b.q| < |a.q| && Handled(a, b, Pass)
  }

  /** One move of the builder. */
  predicate Step(a: Snap, b: Snap) {
    Queued(a, b) || Dropped(a, b) || Ran(a, b)
  }

  /** The head whose handler ran in the move from `a` to `b`, if any. */
  function RanHead(a: Snap, b: Snap): seq<Token> {
    if a.q != [] && Actionable(a.q[0].kind) && |b.q| < |a.q| then [a.q[0]] else []
  }

  /** The token queued in the move from `a` to `b`, if any. */
  function Added(a: Snap, b: Snap): seq<Token> {
    if |b.q| == |a.q| + 1 then [b.q[|a.q|]] else []
  }

  /** Where the moves `moves` made from `a` end. */
  function End(a: Snap, moves: seq<Snap>): Snap {
    if moves == [] then a else moves[|moves| - 1]
  }

  /** Each snapshot of `moves` follows from the one before it, the first
      from `a`, by a move that `step` allows. */
  predicate ChainBy(step: (Snap, Snap) -> bool, a: Snap, moves: seq<Snap>)
    decreases |moves|
  {
    moves == [] || (step(a, moves[0]) && ChainBy(step, moves[0], moves[1..]))
  }

  /** Each snapshot of `moves` follows from the one before it, the first
      from `a`, by one move of the builder. */
  predicate Chain(a: Snap, moves: seq<Snap>) {
    ChainBy(Step, a, moves)
  }

  /** The heads whose handlers ran along the moves from `a`, in order. */
  function Heads(a: Snap, moves: seq<Snap>): seq<Token>
    decreases |moves|
  {
    if moves == [] then [] else RanHead(a, moves[0]) + Heads(moves[0], moves[1..])
  }

  /** The tokens queued along the moves from `a`, in order. */
  function Fed(a: Snap, moves: seq<Snap>): seq<Token>
    decreases |moves|
  {
    if moves == [] then [] else Added(a, moves[0]) + Fed(moves[0], moves[1..])
  }

  /** From `a`, the builder made every move of `moves` but the last, then
      the handler of the head it had reached raised `r`, which left it at
      the last snapshot; `trace` lists the heads run, that one last. */
  predicate Halted(a: Snap, moves: seq<Snap>, trace: seq<Token>, r: Outcome) {
    HaltedBy(Step, Raised, a, moves, trace, r)
  }

  /** `Halted` for the moves `step` allows and the failures `raised`
      describes. */
  predicate HaltedBy(step: (Snap, Snap) -> bool, raised: (Snap, Snap, Outcome) -> bool,
                     a: Snap, moves: seq<Snap>, trace: seq<Token>, r: Outcome) {
    && moves != [] && r.Fail?
    && var init := moves[..|moves| - 1];
    && var c := End(a, init);
    && ChainBy(step, a, init) && c.q != [] && raised(c, moves[|moves| - 1], r)
    && trace == Heads(a, init) + [c.q[0]]
  }

  /** The handler of `c`'s head raised `r`, leaving the builder at `b`:
      the head is a state name, an alias, the end of a superstate or a
      transition source, and its handler failed that way. */
  predicate Raised(c: Snap, b: Snap, r: Outcome) {
    && r.Fail? && c.q != [] && r.error in Raisable(c.q[0].kind)
    && (|| (c.q[0].kind == StateName && StateHandled(c, b, r))
        || (c.q[0].kind == StateAlias && b == c)
        || (c.q[0].kind == SuperstateEnd && EndHandled(c, b, r))
        || (c.q[0].kind == TransSource && TransHandled(c, b, r)))
  }

  /** A handler that returns normally consumed its head and at least that. */
  lemma HandledShrinks(a: Snap, b: Snap)
    requires a.q != [] && Handled(a, b, Pass)
    ensures Actionable(a.q[0].kind) && |b.q| < |a.q|
  {
  }

  /** A handler that returned normally made a move that ran its head. */
  lemma RanStep(a: Snap, b: Snap)
    requires a.q != [] && Handled(a, b, Pass)
    ensures Step(a, b) && RanHead(a, b) == [a.q[0]] && Added(a, b) == []
  {
    HandledShrinks(a, b);
  }

  /** Dropping a head without a handler is a move that runs nothing. */
  lemma DropStep(a: Snap)
    requires a.q != [] && !Actionable(a.q[0].kind)
    ensures Step(a, a.(q := a.q[1..])) && RanHead(a, a.(q := a.q[1..])) == [] && Added(a, a.(q := a.q[1..])) == []
  {
  }

  /** Queueing `t` is a move that runs nothing and queues `t`. */
  lemma QueueStep(a: Snap, t: Token)
    ensures Step(a, a.(q := a.q + [t])) && RanHead(a, a.(q := a.q + [t])) == [] && Added(a, a.(q := a.q + [t])) == [t]
  {
    assert (a.q + [t])[|a.q|] == t;
  }

  /** Moves followed by a handler that raised. */
  lemma HaltStep(step: (Snap, Snap) -> bool, raised: (Snap, Snap, Outcome) -> bool,
                 a: Snap, moves: seq<Snap>, c: Snap, b: Snap, r: Outcome)
    requires ChainBy(step, a, moves) && End(a, moves) == c && r.Fail? && c.q != [] && raised(c, b, r)
    ensures HaltedBy(step, raised, a, moves + [b], Heads(a, moves) + [c.q[0]], r)
    ensures Fed(a, (moves + [b])[..|moves|]) == Fed(a, moves)
  {
    assert (moves + [b])[..|moves|] == moves;
  }

  /** A handler that raised failed as `Raised` describes. */
  lemma HandledRaised(c: Snap, b: Snap, r: Outcome)
    requires c.q != [] && Handled(c, b, r) && r.Fail?
    ensures Raised(c, b, r)
  {
  }

  /** `t` queued behind `a`, then the handler of the head run, taking
      the builder to `b` with outcome `r`. */
  lemma QueuedThenRan(step: (Snap, Snap) -> bool, raised: (Snap, Snap, Outcome) -> bool,
                      a: Snap, t: Token, c: Snap, b: Snap, r: Outcome, fired: seq<Token>)
    requires c == a.(q := a.q + [t]) && step(a, c) && fired == [c.q[0]]
    requires r.Pass? ==> step(c, b) && RanHead(c, b) == fired && Added(c, b) == []
    requires r.Fail? ==> raised(c, b, r)
    ensures ReadingBy(step, raised, a, b, [t], r, fired, [c, b])
  {
    assert (a.q + [t])[|a.q|] == t;
    ChainStep(step, a, [], c);
    assert [] + [c] == [c] && [c] + [b] == [c, b];
    if r.Pass? {
      ChainStep(step, a, [c], b);
    } else {
      HaltStep(step, raised, a, [c], c, b, r);
    }
  }

  /** Nothing done: no moves, nothing queued and nothing run. */
  lemma NoMoves(a: Snap)
    ensures Reading(a, a, [], Pass, [], [])
  {
  }

  /** `t` queued behind `a` and nothing run. */
  lemma QueuedOnly(a: Snap, t: Token, c: Snap)
    requires c == a.(q := a.q + [t])
    ensures Reading(a, c, [t], Pass, [], [c])
  {
    QueueStep(a, t);
    ChainStep(Step, a, [], c);
    assert [] + [c] == [c];
  }

  /** Moves laid end to end, the second ones made from where the first
      ones end. */
  lemma {:induction false} ChainJoin(step: (Snap, Snap) -> bool, a: Snap, s1: seq<Snap>, s2: seq<Snap>)
    requires ChainBy(step, a, s1) && ChainBy(step, End(a, s1), s2)
    ensures ChainBy(step, a, s1 + s2) && End(a, s1 + s2) == End(End(a, s1), s2)
    ensures Heads(a, s1 + s2) == Heads(a, s1) + Heads(End(a, s1), s2)
    ensures Fed(a, s1 + s2) == Fed(a, s1) + Fed(End(a, s1), s2)
  {
    ChainConcat(step, a, s1, s2);
    HeadsConcat(a, s1, s2);
    FedConcat(a, s1, s2);
  }

  /** The chain part of `ChainJoin`. */
  lemma {:induction false} ChainConcat(step: (Snap, Snap) -> bool, a: Snap, s1: seq<Snap>, s2: seq<Snap>)
    requires ChainBy(step, a, s1) && ChainBy(step, End(a, s1), s2)
    ensures ChainBy(step, a, s1 + s2) && End(a, s1 + s2) == End(End(a, s1), s2)
    decreases |s1|
  {
    if s1 == [] {
      assert s1 + s2 == s2;
    } else {
      assert (s1 + s2)[0] == s1[0] && (s1 + s2)[1..] == s1[1..] + s2;
      assert End(s1[0], s1[1..]) == End(a, s1);
      ChainConcat(step, s1[0], s1[1..], s2);
    }
  }

  /** The heads part of `ChainJoin`. */
  lemma {:induction false} HeadsConcat(a: Snap, s1: seq<Snap>, s2: seq<Snap>)
    ensures Heads(a, s1 + s2) == Heads(a, s1) + Heads(End(a, s1), s2)
    decreases |s1|
  {
    if s1 == [] {
      assert s1 + s2 == s2;
    } else {
      assert (s1 + s2)[0] == s1[0] && (s1 + s2)[1..] == s1[1..] + s2;
      assert End(s1[0], s1[1..]) == End(a, s1);
      HeadsConcat(s1[0], s1[1..], s2);
    }
  }

  /** The queued-tokens part of `ChainJoin`. */
  lemma {:induction false} FedConcat(a: Snap, s1: seq<Snap>, s2: seq<Snap>)
    ensures Fed(a, s1 + s2) == Fed(a, s1) + Fed(End(a, s1), s2)
    decreases |s1|
  {
    if s1 == [] {
      assert s1 + s2 == s2;
    } else {
      assert (s1 + s2)[0] == s1[0] && (s1 + s2)[1..] == s1[1..] + s2;
      assert End(s1[0], s1[1..]) == End(a, s1);
      FedConcat(s1[0], s1[1..], s2);
    }
  }

  /** One more move. */
  lemma ChainStep(step: (Snap, Snap) -> bool, a: Snap, moves: seq<Snap>, b: Snap)
    requires ChainBy(step, a, moves) && step(End(a, moves), b)
    ensures ChainBy(step, a, moves + [b]) && End(a, moves + [b]) == b
    ensures Heads(a, moves + [b]) == Heads(a, moves) + RanHead(End(a, moves), b)
    ensures Fed(a, moves + [b]) == Fed(a, moves) + Added(End(a, moves), b)
  {
    ChainJoin(step, a, moves, [b]);
  }

  /** Moves followed by a halted run are a halted run, with the heads of
      the first moves in front. */
  lemma HaltJoin(step: (Snap, Snap) -> bool, raised: (Snap, Snap, Outcome) -> bool,
                 a: Snap, s1: seq<Snap>, s2: seq<Snap>, trace: seq<Token>, r: Outcome)
    requires ChainBy(step, a, s1) && HaltedBy(step, raised, End(a, s1), s2, trace, r)
    ensures HaltedBy(step, raised, a, s1 + s2, Heads(a, s1) + trace, r)
  {
    var init := s2[..|s2| - 1];
    ChainJoin(step, a, s1, init);
    assert (s1 + s2)[..|s1 + s2| - 1] == s1 + init;
    assert (s1 + s2)[|s1 + s2| - 1] == s2[|s2| - 1];
  }

  /** The tokens queued before the handler that raised. */
  lemma HaltFed(a: Snap, s1: seq<Snap>, s2: seq<Snap>)
    requires s2 != []
    ensures Fed(a, (s1 + s2)[..|s1 + s2| - 1]) == Fed(a, s1) + Fed(End(a, s1), s2[..|s2| - 1])
  {
    assert (s1 + s2)[..|s1 + s2| - 1] == s1 + s2[..|s2| - 1];
    FedConcat(a, s1, s2[..|s2| - 1]);
  }

  /** What one move does to the registry and the transitions: keys only
      grow, a handled state name is registered, and a handled transition
      source records one transition. */
  lemma StepEffect(a: Snap, b: Snap)
    requires Step(a, b)
    ensures a.names.Keys <= b.names.Keys && a.transitions <= b.transitions
    ensures RanHead(a, b) != [] && a.q[0].kind == StateName ==> a.q[0].value in b.names
    ensures |b.transitions| == |a.transitions| + |Sources(RanHead(a, b))|
  {
    if Ran(a, b) && a.q[0].kind == StateName {
      var name, parent := a.q[0].value, Top(a.stack);
      var m1 := if name in a.names then a.names else Created(a.names, name, parent);
      assert Declared(a.names, name, parent, None).Keys == m1.Keys;
    }
  }

  /** The transition sources among `ts`. */
  function Sources(ts: seq<Token>): (r: seq<Token>)
    ensures |r| <= |ts|
    ensures forall i :: 0 <= i < |r| ==> r[i].kind == TransSource
  {
    if ts == [] then [] else (if ts[0].kind == TransSource then [ts[0]] else []) + Sources(ts[1..])
  }

  /** Along a chain of moves, states are only ever added to the registry;
      every state name whose handler ran is registered at the end; and the
      recorded transitions grew by exactly one per transition source
      handled. */
  lemma {:induction false} ChainEffect(a: Snap, moves: seq<Snap>)
    requires Chain(a, moves)
    ensures a.names.Keys <= End(a, moves).names.Keys && a.transitions <= End(a, moves).transitions
    ensures forall t :: t in Heads(a, moves) && t.kind == StateName ==> t.value in End(a, moves).names
    ensures |End(a, moves).transitions| == |a.transitions| + |Sources(Heads(a, moves))|
    decreases |moves|
  {
    if moves != [] {
      var b, rest := moves[0], moves[1..];
      assert Step(a, b) && Chain(b, rest) && Heads(a, moves) == RanHead(a, b) + Heads(b, rest);
      StepEffect(a, b);
      ChainEffect(b, rest);
      assert End(b, rest) == End(a, moves);
      SourcesConcat(RanHead(a, b), Heads(b, rest));
    }
  }

  /** The transition sources of two lists laid end to end. */
  lemma {:induction false} SourcesConcat(x: seq<Token>, y: seq<Token>)
    ensures Sources(x + y) == Sources(x) + Sources(y)
    decreases |x|
  {
    if x == [] {
      assert x + y == y;
    } else {
      assert (x + y)[0] == x[0] && (x + y)[1..] == x[1..] + y;
      SourcesConcat(x[1..], y);
    }
  }

  /** The token `t` as the loop of `parse` queues it: ignored ones never are. */
  function Keep(t: Token): seq<Token> {
    if Ignored(t.kind) then [] else [t]
  }

  /** The tokens of a stream that the loop of `parse` queues, in order. */
  function Kept(ts: seq<Token>): (r: seq<Token>)
    ensures |r| <= |ts|
    ensures forall i :: 0 <= i < |r| ==> !Ignored(r[i].kind)
  {
    if ts == [] then [] else Kept(ts[..|ts| - 1]) + Keep(ts[|ts| - 1])
  }

  /** A token of a stream that has a handler is among the stream's
      actionable tokens. */
  lemma {:induction false} ActsHas(ts: seq<Token>, t: Token)
    requires t in ts && Actionable(t.kind)
    ensures t in Acts(ts)
  {
    if ts[0] != t {
      ActsHas(ts[1..], t);
    }
  }

  /** The tokens kept from a prefix of the stream start those kept from
      the whole stream. */
  lemma {:induction false} KeptPrefix(ts: seq<Token>, n: nat)
    requires n <= |ts|
    ensures Kept(ts[..n]) <= Kept(ts)
    decreases |ts| - n
  {
    if n < |ts| {
      KeptPrefix(ts, n + 1);
      assert ts[..n + 1][..n] == ts[..n];
      PrefixTrans(Kept(ts[..n]), Kept(ts[..n + 1]), Kept(ts));
    } else {
      assert ts[..n] == ts;
    }
  }

  /** The kept tokens of a stream have the stream's actionable tokens. */
  lemma {:induction false} KeptActs(ts: seq<Token>)
    ensures Acts(Kept(ts)) == Acts(ts)
  {
    if ts != [] {
      var init, t := ts[..|ts| - 1], ts[|ts| - 1];
      assert ts == init + [t];
      KeptActs(init);
      ActsConcat(Kept(init), Keep(t));
      ActsConcat(init, [t]);
      assert Acts([t]) == Lead(t) + Acts([]);
      assert Acts(Keep(t)) == Acts([t]);
    }
  }

  /** What one move does to the actionable tokens: those queued before
      and the one it queues are the head it ran, if any, followed by those
      still queued. */
  lemma StepActs(a: Snap, b: Snap)
    requires Step(a, b)
    ensures Acts(a.q) + Acts(Added(a, b)) == RanHead(a, b) + Acts(b.q)
  {
    if Queued(a, b) {
      ActsConcat(a.q, Added(a, b));
    } else if Dropped(a, b) {
      assert Acts(Added(a, b)) == [];
    } else {
      assert Acts(Added(a, b)) == [];
      match a.q[0].kind
      case StateName => StateSpanActs(a.q);
      case SuperstateEnd => ActsTail(a.q, 1);
      case TransSource => TransSpanActs(a.q);
    }
  }

  /** Along a chain of moves, the actionable tokens queued at the start
      and those queued on the way are the heads run, in order, followed by
      those still queued. */
  lemma {:induction false} ChainActs(a: Snap, moves: seq<Snap>)
    requires Chain(a, moves)
    ensures Acts(a.q) + Acts(Fed(a, moves)) == Heads(a, moves) + Acts(End(a, moves).q)
    decreases |moves|
  {
    if moves != [] {
      var b, rest := moves[0], moves[1..];
      assert Step(a, b) && Chain(b, rest);
      assert Fed(a, moves) == Added(a, b) + Fed(b, rest) && Heads(a, moves) == RanHead(a, b) + Heads(b, rest);
      StepActs(a, b);
      ChainActs(b, rest);
      assert End(b, rest) == End(a, moves);
      ActsConcat(Added(a, b), Fed(b, rest));
      Shift(Acts(a.q), Acts(Added(a, b)), RanHead(a, b), Acts(b.q), Acts(Fed(b, rest)), Heads(b, rest), Acts(End(a, moves).q));
    }
  }

  /** The regrouping behind `ChainActs`. */
  lemma Shift(x: seq<Token>, y: seq<Token>, h: seq<Token>, z: seq<Token>, w: seq<Token>, k: seq<Token>, e: seq<Token>)
    requires x + y == h + z && z + w == k + e
    ensures x + (y + w) == (h + k) + e
  {
    calc {
      x + (y + w);
      (x + y) + w;
      (h + z) + w;
      h + (z + w);
      h + (k + e);
    }
  }

  /** What a halted run did: the heads run, the failed one last, start the
      actionable tokens queued before it and on the way; the error is one
      the failed head's handler raises; states were only added and
      transitions only appended. */
  lemma HaltedFacts(a: Snap, moves: seq<Snap>, trace: seq<Token>, r: Outcome)
    requires Halted(a, moves, trace, r)
    ensures trace != [] && trace <= Acts(a.q) + Acts(Fed(a, moves[..|moves| - 1]))
    ensures r.error in Raisable(trace[|trace| - 1].kind)
    ensures a.names.Keys <= moves[|moves| - 1].names.Keys
    ensures a.transitions <= moves[|moves| - 1].transitions
  {
    var init := moves[..|moves| - 1];
    var c, b := End(a, init), moves[|moves| - 1];
    ChainActs(a, init);
    ChainEffect(a, init);
    RaisedEffect(c, b, r);
    assert Acts(c.q) == [c.q[0]] + Acts(c.q[1..]);
    TakeHead(Heads(a, init), Acts(c.q), Acts(a.q) + Acts(Fed(a, init)));
  }

  /** A handler that raised added no transition and removed no state. */
  lemma RaisedEffect(c: Snap, b: Snap, r: Outcome)
    requires Raised(c, b, r)
    ensures c.names.Keys <= b.names.Keys && c.transitions == b.transitions
    ensures r.error in Raisable(c.q[0].kind)
  {
  }

  /** The heads run, then the head of what is still actionable, start the
      whole. */
  lemma TakeHead(h: seq<Token>, rest: seq<Token>, whole: seq<Token>)
    requires whole == h + rest && rest != []
    ensures h + [rest[0]] <= whole
  {
    assert whole[..|h| + 1] == h + [rest[0]];
  }

  /** What `parse` promises, from the builder's state `a` before it to its
      state `b` after it, over the stream `tokens`. On success `moves` are
      a chain from `a` to `b` that queued every token of the stream that is
      not ignored, and ran the handlers of the heads in `trace`; those heads
      and what is still queued hold the actionable tokens of the old queue
      and the stream, and from an empty queue every actionable token of
      the stream was handled, in order, every state name read is
      registered, and one transition was recorded per transition source.
      On failure `moves` are such a chain over a prefix of the stream,
      ended by the handler that raised, whose head ends `trace`; the error
      is one that head's handler raises, never a NameError or a
      TypeError. Either way no state is forgotten and no transition
      undone. */
  predicate Parsed(a: Snap, b: Snap, tokens: seq<Token>, r: Outcome, trace: seq<Token>, moves: seq<Snap>) {
    || (&& r.Pass? && Chain(a, moves) && End(a, moves) == b
        && Heads(a, moves) == trace && Fed(a, moves) == Kept(tokens)
        && Acts(a.q) + Acts(tokens) == trace + Acts(b.q) && |Acts(b.q)| == |Acts(a.q)|
        && (a.q == [] ==>
          && trace == Acts(tokens) && Acts(b.q) == []
          && (forall t :: t in tokens && t.kind == StateName ==> t.value in b.names)
          && |b.transitions| == |a.transitions| + |Sources(Acts(tokens))|)
        && a.names.Keys <= b.names.Keys && a.transitions <= b.transitions)
    || (&& r.Fail? && Halted(a, moves, trace, r) && End(a, moves) == b
        && Fed(a, moves[..|moves| - 1]) <= Kept(tokens)
        && trace != [] && trace <= Acts(a.q) + Acts(tokens)
        && r.error in Raisable(trace[|trace| - 1].kind)
        && r.error != NameError && r.error != TypeError
        && a.names.Keys <= b.names.Keys && a.transitions <= b.transitions)
  }

  /** The moves `moves` the builder made from `a` to `b`: on success a
      chain that queued `kept` and ran the heads of `trace`; on failure a
      chain that queued `kept`, ended by the handler that raised, whose
      head ends `trace`. */
  predicate Reading(a: Snap, b: Snap, kept: seq<Token>, r: Outcome, trace: seq<Token>, moves: seq<Snap>) {
    ReadingBy(Step, Raised, a, b, kept, r, trace, moves)
  }

  /** `Reading` for the moves `step` allows and the failures `raised`
      describes. */
  predicate ReadingBy(step: (Snap, Snap) -> bool, raised: (Snap, Snap, Outcome) -> bool,
                      a: Snap, b: Snap, kept: seq<Token>, r: Outcome, trace: seq<Token>, moves: seq<Snap>) {
    || (&& r.Pass? && ChainBy(step, a, moves) && End(a, moves) == b
        && Heads(a, moves) == trace && Fed(a, moves) == kept)
    || (&& r.Fail? && HaltedBy(step, raised, a, moves, trace, r) && End(a, moves) == b
        && Fed(a, moves[..|moves| - 1]) == kept)
  }

  /** Moves that returned normally, then more moves from where they ended:
      the moves joined queued both lots of tokens and ran both lots of
      heads, and end as the second ones do. */
  lemma ReadJoin(step: (Snap, Snap) -> bool, raised: (Snap, Snap, Outcome) -> bool,
                 a: Snap, c: Snap, b: Snap, k1: seq<Token>, k2: seq<Token>, r: Outcome,
                 t1: seq<Token>, t2: seq<Token>, s1: seq<Snap>, s2: seq<Snap>)
    requires ReadingBy(step, raised, a, c, k1, Pass, t1, s1) && ReadingBy(step, raised, c, b, k2, r, t2, s2)
    ensures ReadingBy(step, raised, a, b, k1 + k2, r, t1 + t2, s1 + s2)
  {
    if r.Fail? {
      HaltJoin(step, raised, a, s1, s2, t2, r);
      HaltFed(a, s1, s2);
      assert (s1 + s2)[|s1 + s2| - 1] == s2[|s2| - 1];
    } else {
      ChainJoin(step, a, s1, s2);
    }
  }

  /** Feeding the stream's `i`-th token from `c`, reached from `a` by
      moves that queued the tokens kept before it, extends those moves. */
  lemma FeedJoin(step: (Snap, Snap) -> bool, raised: (Snap, Snap, Outcome) -> bool,
                 a: Snap, c: Snap, b: Snap, s1: seq<Snap>, s2: seq<Snap>, tokens: seq<Token>, i: nat,
                 r: Outcome, trace: seq<Token>, fired: seq<Token>)
    requires i < |tokens|
    requires ReadingBy(step, raised, a, c, Kept(tokens[..i]), Pass, trace, s1)
    requires ReadingBy(step, raised, c, b, Keep(tokens[i]), r, fired, s2)
    ensures ReadingBy(step, raised, a, b, Kept(tokens[..i + 1]), r, trace + fired, s1 + s2)
  {
    assert tokens[..i + 1][..i] == tokens[..i];
    ReadJoin(step, raised, a, c, b, Kept(tokens[..i]), Keep(tokens[i]), r, trace, fired, s1, s2);
  }

  /** The handler of the head reached from `a` by a chain that queued
      nothing raised `r`: the drain stops there. */
  lemma DrainStops(a: Snap, moves: seq<Snap>, trace: seq<Token>, c: Snap, b: Snap, r: Outcome)
    requires Reading(a, c, [], Pass, trace, moves) && Raised(c, b, r)
    ensures Reading(a, b, [], r, trace + [c.q[0]], moves + [b])
    ensures trace + [c.q[0]] <= Acts(a.q) && r.error in Raisable(c.q[0].kind)
    ensures a.names.Keys <= b.names.Keys && a.transitions <= b.transitions
  {
    HaltStep(Step, Raised, a, moves, c, b, r);
    HaltedFacts(a, moves + [b], trace + [c.q[0]], r);
    assert (moves + [b])[..|moves + [b]| - 1] == moves;
    assert Acts(a.q) + Acts([]) == Acts(a.q);
  }

  /** A drain that ran out of pending heads: its moves are those of a
      successful read of nothing, the heads run start the actionable
      tokens queued before it, and states and transitions were only
      added. */
  lemma DrainDone(a: Snap, b: Snap, moves: seq<Snap>, trace: seq<Token>)
    requires Reading(a, b, [], Pass, trace, moves)
    ensures Acts(a.q) == trace + Acts(b.q)
    ensures a.names.Keys <= b.names.Keys && a.transitions <= b.transitions
  {
    ChainActs(a, moves);
    ChainEffect(a, moves);
    assert Acts(a.q) + Acts([]) == Acts(a.q);
  }

  /** Moves that ran no handler and queued nothing only dropped heads:
      where they end, the queue is a suffix of `a.q` and nothing else
      changed. */
  lemma {:induction false} OnlyDropped(a: Snap, moves: seq<Snap>)
    requires Chain(a, moves) && Heads(a, moves) == [] && Fed(a, moves) == []
    ensures var c := End(a, moves); |c.q| <= |a.q| && c == a.(q := a.q[|a.q| - |c.q|..])
    decreases |moves|
  {
    if moves != [] {
      var b, rest := moves[0], moves[1..];
      assert RanHead(a, b) + Heads(b, rest) == [] && Added(a, b) + Fed(b, rest) == [];
      assert Step(a, b) && RanHead(a, b) == [] && Added(a, b) == [];
      assert Dropped(a, b);
      OnlyDropped(b, rest);
      var c := End(b, rest);
      assert c == End(a, moves);
      assert b.q[|b.q| - |c.q|..] == a.q[|a.q| - |c.q|..];
    }
  }

  /** The stray head of the finding: an attribute queued before the only
      pending state name. */
  const StrayQueue := [Token(StateAttr, "x"), Token(StateName, "Idle"), Token(StateAttr, "y")]

  /** The corrected drain of one pending head from `StrayQueue`, with a
      superstate stack that is not empty: whatever moves it made, it
      returned normally and `Idle` is declared. */
  lemma StrayHeadDrained(a: Snap, b: Snap, r: Outcome, trace: seq<Token>, moves: seq<Snap>)
    requires a.q == StrayQueue && a.stack != []
    requires Reading(a, b, [], r, trace, moves)
    requires r.Pass? ==> |trace| == 1 && Acts(a.q) == trace + Acts(b.q)
    requires r.Fail? ==> trace <= Acts(a.q)
    ensures r.Pass? && "Idle" in b.names
  {
    assert Acts(a.q) == [Token(StateName, "Idle")];
    if r.Fail? {
      var init := moves[..|moves| - 1];
      var c := End(a, init);
      assert |trace| == |Heads(a, init)| + 1;
      OnlyDropped(a, init);
      assert false;
    }
    ChainEffect(a, moves);
    assert trace[0] == Token(StateName, "Idle");
  }

  /** One more move that queues nothing, after a successful read. */
  lemma ReadOn(step: (Snap, Snap) -> bool, raised: (Snap, Snap, Outcome) -> bool,
               a: Snap, c: Snap, b: Snap, kept: seq<Token>, trace: seq<Token>, moves: seq<Snap>)
    requires ReadingBy(step, raised, a, c, kept, Pass, trace, moves) && step(c, b) && Added(c, b) == []
    ensures ReadingBy(step, raised, a, b, kept, Pass, trace + RanHead(c, b), moves + [b])
  {
    ChainStep(step, a, moves, b);
    assert kept + [] == kept;
  }

  /** What a successful `parse` promises, from the moves it made from `a`
      over the stream `tokens`: the heads run and what is still queued
      hold the actionable tokens of the old queue and the stream; from an
      empty queue every actionable token of the stream was handled, in
      order, every state name read is registered, and one transition was
      recorded per transition source. */
  lemma ParsedFacts(a: Snap, tokens: seq<Token>, trace: seq<Token>, moves: seq<Snap>)
    requires Chain(a, moves) && Heads(a, moves) == trace && Fed(a, moves) == Kept(tokens)
    requires |Acts(End(a, moves).q)| == |Acts(a.q)|
    ensures var b := End(a, moves);
      && Acts(a.q) + Acts(tokens) == trace + Acts(b.q)
      && a.names.Keys <= b.names.Keys && a.transitions <= b.transitions
      && (a.q == [] ==>
        && trace == Acts(tokens) && Acts(b.q) == []
        && (forall t :: t in tokens && t.kind == StateName ==> t.value in b.names)
        && |b.transitions| == |a.transitions| + |Sources(Acts(tokens))|)
    ensures Parsed(a, End(a, moves), tokens, Pass, trace, moves)
  {
    KeptActs(tokens);
    ChainActs(a, moves);
    ChainEffect(a, moves);
    if a.q == [] {
      assert Acts(a.q) == [];
      assert Acts(a.q) + Acts(tokens) == Acts(tokens);
      forall t | t in tokens && t.kind == StateName
        ensures t.value in End(a, moves).names
      {
        ActsHas(tokens, t);
      }
    }
  }

  /** What a failed `parse` promises: the heads run, the failed one last,
      start the actionable tokens of the old queue and the stream, and the
      error is one that head's handler raises. */
  lemma ParseFailFacts(a: Snap, tokens: seq<Token>, trace: seq<Token>, moves: seq<Snap>, r: Outcome)
    requires Halted(a, moves, trace, r) && Fed(a, moves[..|moves| - 1]) <= Kept(tokens)
    ensures trace != [] && trace <= Acts(a.q) + Acts(tokens) && r.error in Raisable(trace[|trace| - 1].kind)
    ensures a.names.Keys <= End(a, moves).names.Keys && a.transitions <= End(a, moves).transitions
    ensures Parsed(a, End(a, moves), tokens, r, trace, moves)
  {
    KeptActs(tokens);
    HaltedFacts(a, moves, trace, r);
    var fed := Fed(a, moves[..|moves| - 1]);
    ActsPrefix(fed, Kept(tokens));
    PrefixExtend(Acts(a.q), Acts(fed), Acts(Kept(tokens)));
    PrefixTrans(trace, Acts(a.q) + Acts(fed), Acts(a.q) + Acts(tokens));
  }

  /** Either outcome of `parse`, from the moves it made: `Parsed` holds. */
  lemma ParseOutcome(a: Snap, b: Snap, tokens: seq<Token>, kept: seq<Token>, r: Outcome, trace: seq<Token>, moves: seq<Snap>)
    requires Reading(a, b, kept, r, trace, moves) && kept <= Kept(tokens)
    requires r.Pass? ==> kept == Kept(tokens) && |Acts(b.q)| == |Acts(a.q)|
    ensures Parsed(a, b, tokens, r, trace, moves)
  {
    if r.Pass? {
      ParsedFacts(a, tokens, trace, moves);
    } else {
      ParseFailFacts(a, tokens, trace, moves, r);
    }
  }

  /** Reading the stream from `a` to `c`, then draining from `c`: on either
      outcome of the drain, the moves joined queued what reading kept. */
  lemma ReadThenDrain(step: (Snap, Snap) -> bool, raised: (Snap, Snap, Outcome) -> bool,
                      a: Snap, c: Snap, b: Snap, kept: seq<Token>, read: seq<Token>, s1: seq<Snap>,
                      r: Outcome, more: seq<Token>, s2: seq<Snap>)
    requires ReadingBy(step, raised, a, c, kept, Pass, read, s1)
    requires ReadingBy(step, raised, c, b, [], r, more, s2)
    ensures ReadingBy(step, raised, a, b, kept, r, read + more, s1 + s2)
  {
    ReadJoin(step, raised, a, c, b, kept, [], r, read, more, s1, s2);
    assert kept + [] == kept;
  }

  class StateModelBuilder {
    /** `self.q`: the queued tokens, head first. */
    var q: seq<Token>
    /** `superstate_stack`: the open superstates, innermost last; `None`
        stands for the root diagram. */
    var stack: seq<Option<Name>>
    /** `self.diagram`, the model the builder fills. */
    const diagram: StateDiagram

    /** The diagram is coherent, its neighbour lists match its recorded
        transitions, and every open superstate is registered in it, so no
        handler can meet an unknown parent. */
    ghost predicate Valid()
      reads this, diagram
    {
      && diagram.Valid()
      && Wired(diagram.stateNames, diagram.transitions)
      && OpenNames(stack) <= diagram.stateNames.Keys
    }

    /** The builder's state as a value. */
    ghost function Snapshot(): Snap
      reads this, diagram
    {
      Snap(q, stack, diagram.stateNames, diagram.topLevel, diagram.transitions, diagram.nodes, diagram.edges)
    }

    constructor ()
      ensures Valid() && fresh(diagram)
      ensures q == [] && stack == [None]
      ensures diagram.stateNames == map[] && diagram.topLevel == [] && diagram.transitions == []
      ensures diagram.nodes == {} && diagram.edges == {}
    {
      diagram := new StateDiagram();
      q, stack := [], [None];
    }

    /** `lookup_state`: aliases are not implemented; the head stays queued. */
    method LookupState() returns (r: Outcome)
      ensures r.Fail? && r.error == NotImplementedError
    {
      r := Fail(NotImplementedError);
    }

    /** `diagram.add_state(name, parent_state=superstate_stack[-1])`. */
    method AddUnder(name: Name)
      requires Valid() && stack != []
      modifies diagram
      ensures Valid()
      ensures var m, parent := old(diagram.stateNames), Top(stack);
        && diagram.stateNames == Declared(m, name, parent, None)
        && diagram.topLevel == old(diagram.topLevel) + RootAdded(m, name, parent)
        && diagram.nodes == old(diagram.nodes) + RootNode(m, name, parent)
      ensures diagram.stateNames.Keys == old(diagram.stateNames).Keys + {name}
      ensures diagram.transitions == old(diagram.transitions) && diagram.edges == old(diagram.edges)
    {
      var parent := Top(stack);
      DeclaredKeys(diagram.stateNames, name, parent);
      var r := diagram.AddState(name, parent, None);
    }

    /** `start_superstate`: consume the `{`, add the state under the
        innermost open superstate and open it. */
    method StartSuperstate(name: Name) returns (r: Outcome)
      requires Valid()
      modifies this, diagram
      ensures Valid()
      ensures r.Fail? <==> old(q) == [] || old(stack) == []
      ensures r.Fail? ==> r.error == IndexError && stack == old(stack) && unchanged(diagram)
      ensures old(q) != [] ==> q == old(q)[1..]
      ensures r.Pass? ==> var m, parent := old(diagram.stateNames), Top(old(stack));
        && stack == old(stack) + [Some(name)]
        && diagram.stateNames == Declared(m, name, parent, None)
        && diagram.topLevel == old(diagram.topLevel) + RootAdded(m, name, parent)
        && diagram.nodes == old(diagram.nodes) + RootNode(m, name, parent)
      ensures diagram.stateNames.Keys == old(diagram.stateNames).Keys + (if r.Pass? then {name} else {})
      ensures diagram.transitions == old(diagram.transitions) && diagram.edges == old(diagram.edges)
    {
      if q == [] {
        return Fail(IndexError);
      }
      q := q[1..];
      if stack == [] {
        return Fail(IndexError);
      }
      AddUnder(name);
      OpenPush(stack, name);
      stack := stack + [Some(name)];
      r := Pass;
    }

    /** The end of `assign_state`: peek at the head (IndexError on an empty
        queue) and, when it is a state attribute, pop it and add it to the
        state `name`. */
    method TakeStateAttr(name: Name) returns (r: Outcome)
      requires Valid() && name in diagram.stateNames
      modifies this, diagram
      ensures Valid()
      ensures r.Fail? <==> old(q) == []
      ensures r.Fail? ==> r.error == IndexError && unchanged(this) && unchanged(diagram)
      ensures r.Pass? ==> var attr := HeadAttr(old(q));
        && q == (if attr.Some? then old(q)[1..] else old(q))
        && diagram.stateNames == AttrAdded(old(diagram.stateNames), name, attr)
      ensures stack == old(stack) && diagram.stateNames.Keys == old(diagram.stateNames).Keys
      ensures diagram.topLevel == old(diagram.topLevel) && diagram.nodes == old(diagram.nodes)
      ensures diagram.transitions == old(diagram.transitions) && diagram.edges == old(diagram.edges)
    {
      if q == [] {
        return Fail(IndexError);
      }
      if q[0].kind == StateAttr {
        var attr := q[0].value;
        q := q[1..];
        r := diagram.AddStateAttr(Named(name), attr);
      }
      r := Pass;
    }

    /** The middle of `assign_state`, once the name is popped: a `{` at the
        head opens the state as a superstate, anything else leaves the
        state under the innermost open superstate. */
    method Place(name: Name) returns (r: Outcome)
      requires Valid() && q != []
      modifies this, diagram
      ensures Valid()
      ensures r.Fail? <==> old(stack) == []
      ensures r.Fail? ==> r.error == IndexError
      ensures r.Pass? ==>
        var parent, m := Top(old(stack)), old(diagram.stateNames);
        var opens := old(q)[0].kind == SuperstateStart;
        && (opens ==> q == old(q)[1..] && stack == old(stack) + [Some(name)])
        && (!opens ==> q == old(q) && stack == old(stack))
        && diagram.stateNames == Declared(m, name, parent, None)
        && diagram.topLevel == old(diagram.topLevel) + RootAdded(m, name, parent)
        && diagram.nodes == old(diagram.nodes) + RootNode(m, name, parent)
      ensures r.Fail? ==> diagram.nodes == old(diagram.nodes)
      ensures old(diagram.stateNames).Keys <= diagram.stateNames.Keys
      ensures r.Pass? ==> name in diagram.stateNames
      ensures diagram.transitions == old(diagram.transitions) && diagram.edges == old(diagram.edges)
    {
      if q[0].kind == SuperstateStart {
        r := StartSuperstate(name);
      } else if stack == [] {
        r := Fail(IndexError);
      } else {
        AddUnder(name);
        r := Pass;
      }
    }

    /** `assign_state`: pop the state name; if a `{` follows, open the
        state as a superstate, else add it under the innermost open
        superstate; then a state attribute that follows is added to it.
        Peeking at an empty queue or reading an empty stack raises
        IndexError. */
    method AssignState() returns (r: Outcome)
      requires Valid()
      modifies this, diagram
      ensures Valid()
      ensures r.Fail? ==> r.error == IndexError
      ensures r.Pass? <==> StateQueued(old(q)) && old(stack) != []
      ensures old(q) != [] ==> StateHandled(old(Snapshot()), Snapshot(), r)
      ensures r.Pass? ==>
        var name, parent, m := old(q)[0].value, Top(old(stack)), old(diagram.stateNames);
        var opens := old(q)[1].kind == SuperstateStart;
        && q == old(q)[StateSpan(old(q))..]
        && stack == old(stack) + (if opens then [Some(name)] else [])
        && diagram.stateNames == AttrAdded(Declared(m, name, parent, None), name, StateAttrOf(old(q)))
        && diagram.topLevel == old(diagram.topLevel) + RootAdded(m, name, parent)
        && diagram.nodes == old(diagram.nodes) + RootNode(m, name, parent)
      ensures old(diagram.stateNames).Keys <= diagram.stateNames.Keys
      ensures diagram.transitions == old(diagram.transitions) && diagram.edges == old(diagram.edges)
    {
      if |q| < 2 {
        if q != [] {
          q := q[1..];
        }
        return Fail(IndexError);
      }
      var name := q[0].value;
      q := q[1..];
      ghost var q0 := q;
      r := Place(name);
      if r.Pass? {
        ghost var q1 := q;
        PlaceSteps(old(q), q0, q1);
        assert stack == old(stack) + (if q0[0].kind == SuperstateStart then [Some(name)] else []);
        r := TakeStateAttr(name);
        if r.Pass? {
          AttrSteps(old(q), q1, q);
        }
      }
    }

    /** `end_superstate`: consume the `}` and close the innermost open
        superstate; an empty queue or stack raises IndexError. */
    method EndSuperstate() returns (r: Outcome)
      requires Valid()
      modifies this
      ensures Valid()
      ensures r.Fail? ==> r.error == IndexError
      ensures r.Pass? <==> old(q) != [] && old(stack) != []
      ensures old(q) != [] ==> EndHandled(old(Snapshot()), Snapshot(), r)
      ensures q == if old(q) == [] then old(q) else old(q)[1..]
      ensures stack == if r.Pass? then old(stack)[..|old(stack)| - 1] else old(stack)
    {
      if q == [] {
        return Fail(IndexError);
      }
      q := q[1..];
      if stack == [] {
        return Fail(IndexError);
      }
      stack := stack[..|stack| - 1];
      r := Pass;
    }

    /** `assign_trans`: pop the source; a destination must follow (else
        AttributeError, or IndexError on an empty queue); pop it and a
        transition attribute that follows; then add the transition inside
        the innermost open superstate. */
    method AssignTrans() returns (r: Outcome)
      requires Valid()
      modifies this, diagram
      ensures Valid()
      ensures r.Fail? ==> r.error == IndexError || r.error == AttributeError
      ensures r == Fail(AttributeError) <==> |old(q)| >= 2 && old(q)[1].kind != TransDest
      ensures r.Pass? <==> |old(q)| >= 2 && old(q)[1].kind == TransDest && old(stack) != []
      ensures old(q) != [] ==> TransHandled(old(Snapshot()), Snapshot(), r)
      ensures r.Fail? ==> stack == old(stack) && unchanged(diagram)
      ensures r.Pass? ==>
        var m, parent := old(diagram.stateNames), Top(old(stack));
        var s, d := SourceName(old(q)[0].value), DestName(old(q)[1].value);
        && q == old(q)[TransSpan(old(q))..]
        && stack == old(stack)
        && diagram.transitions == old(diagram.transitions) + [NewTransition(s, d, TransAttrOf(old(q)))]
        && (!Truthy(parent) || parent.value in Registered(Registered(m, s), d))
        && diagram.stateNames == Connected(m, s, d, parent)
        && diagram.topLevel == RootsAfter(Registered(m, s), RootsAfter(m, old(diagram.topLevel), s), d)
        && diagram.nodes == old(diagram.nodes) + NewNames(m, s, d) + (if Truthy(parent) then {} else {s, d})
        && diagram.edges == old(diagram.edges) + (if Truthy(parent) then {} else {(s, d)})
      ensures old(diagram.stateNames).Keys <= diagram.stateNames.Keys
      ensures old(diagram.transitions) <= diagram.transitions
    {
      if q == [] {
        return Fail(IndexError);
      }
      var source := q[0].value;
      q := q[1..];
      if q == [] {
        return Fail(IndexError);
      }
      if q[0].kind != TransDest {
        return Fail(AttributeError);
      }
      var dest := q[0].value;
      q := q[1..];
      var attr := None;
      if |q| > 0 && q[0].kind == TransAttr {
        attr := Some(q[0].value);
        q := q[1..];
      }
      if stack == [] {
        return Fail(IndexError);
      }
      AddInside(source, dest, attr);
      r := Pass;
    }

    /** `diagram.add_transition(source, dest,
        parent_state=superstate_stack[-1], attributes=attr)`. */
    method AddInside(source: Name, dest: Name, attr: Option<string>)
      requires Valid() && stack != []
      modifies diagram
      ensures Valid()
      ensures
        var m, parent := old(diagram.stateNames), Top(stack);
        var s, d := SourceName(source), DestName(dest);
        && diagram.transitions == old(diagram.transitions) + [NewTransition(s, d, attr)]
        && (!Truthy(parent) || parent.value in Registered(Registered(m, s), d))
        && diagram.stateNames == Connected(m, s, d, parent)
        && diagram.topLevel == RootsAfter(Registered(m, s), RootsAfter(m, old(diagram.topLevel), s), d)
        && diagram.nodes == old(diagram.nodes) + NewNames(m, s, d) + (if Truthy(parent) then {} else {s, d})
        && diagram.edges == old(diagram.edges) + (if Truthy(parent) then {} else {(s, d)})
      ensures old(diagram.stateNames).Keys <= diagram.stateNames.Keys
    {
      var parent := Top(stack);
      ConnectedLinks(diagram.stateNames, SourceName(source), DestName(dest), parent);
      var r := diagram.AddTransition(source, dest, parent, attr);
    }

    /** `action_tokens[q[0][0]]()`: run the handler of the head, which
        does what `Handled` says for its kind. On success the head, and no
        other actionable token, has left the queue. Whatever the handler
        raises, it is never NameError: every open superstate is
        registered. */
    method Dispatch() returns (r: Outcome)
      requires Valid() && q != [] && Actionable(q[0].kind)
      modifies this, diagram
      ensures Valid()
      ensures Handled(old(Snapshot()), Snapshot(), r)
      ensures r.Fail? ==> r.error in Raisable(old(q)[0].kind)
      ensures r.Pass? ==> Acts(old(q)) == [old(q)[0]] + Acts(q)
      ensures old(diagram.stateNames).Keys <= diagram.stateNames.Keys
      ensures old(diagram.transitions) <= diagram.transitions
    {
      ghost var q0 := q;
      match q[0].kind {
        case StateName =>
          r := AssignState();
          if r.Pass? {
            StateSpanActs(q0);
          }
        case StateAlias =>
          r := LookupState();
        case SuperstateEnd =>
          r := EndSuperstate();
          if r.Pass? {
            ActsTail(q0, 1);
          }
        case TransSource =>
          r := AssignTrans();
          if r.Pass? {
            TransSpanActs(q0);
          }
      }
    }

    /** The loop that ends `parse`, with its `else` branch as the authors
        evidently meant it: a head without a handler is popped and logged,
        and draining goes on. `moves` are the builder's moves from the
        state before: on success a chain of dropped heads and handlers
        that ran, whose heads are `trace`, exactly the first `pending`
        actionable tokens of the queue; on failure such a chain ended by
        the handler that raised, whose head ends `trace`. Nothing is
        queued. */
    method Drain(pending: nat) returns (r: Outcome, ghost trace: seq<Token>, ghost moves: seq<Snap>)
      requires Valid() && pending <= |Acts(q)|
      modifies this, diagram
      ensures Valid()
      ensures Reading(old(Snapshot()), Snapshot(), [], r, trace, moves)
      ensures r.Pass? ==> |trace| == pending && Acts(old(q)) == trace + Acts(q)
      ensures r.Fail? ==> trace != [] && trace <= Acts(old(q)) && r.error in Raisable(trace[|trace| - 1].kind)
      ensures old(diagram.stateNames).Keys <= diagram.stateNames.Keys
      ensures old(diagram.transitions) <= diagram.transitions
    {
      trace, moves := [], [];
      ghost var s0 := Snapshot();
      var left: nat := pending;
      while left > 0
        invariant Valid()
        invariant left <= |Acts(q)| && |trace| + left == pending
        invariant s0 == old(Snapshot()) && Reading(s0, Snapshot(), [], Pass, trace, moves)
        decreases left, |q|
      {
        ghost var sa := Snapshot();
        if Actionable(q[0].kind) {
          r := Dispatch();
          ghost var sb := Snapshot();
          if r.Fail? {
            HandledRaised(sa, sb, r);
            DrainStops(s0, moves, trace, sa, sb, r);
            trace, moves := trace + [sa.q[0]], moves + [sb];
            return;
          }
          RanStep(sa, sb);
          ReadOn(Step, Raised, s0, sa, sb, [], trace, moves);
          trace, moves := trace + [sa.q[0]], moves + [sb];
          left := left - 1;
        } else {
          assert Acts(q) == Acts(q[1..]);
          DropStep(sa);
          ReadOn(Step, Raised, s0, sa, sa.(q := sa.q[1..]), [], trace, moves);
          q := q[1..];
          moves := moves + [Snapshot()];
        }
      }
      r := Pass;
      DrainDone(s0, Snapshot(), moves, trace);
    }

    /** The same loop as written: the `else` branch pops the head and then
        concatenates it, a tuple, to a string, which raises TypeError. */
    method DrainAsWritten(pending: nat) returns (r: Outcome)
      requires Valid() && pending <= |Acts(q)|
      modifies this, diagram
      ensures Valid()
      ensures pending > 0 && !Actionable(old(q)[0].kind) ==>
        r == Fail(TypeError) && q == old(q)[1..] && stack == old(stack) && unchanged(diagram)
      ensures r.Pass? ==> |Acts(q)| + pending == |Acts(old(q))|
    {
      var left: nat := pending;
      while left > 0
        invariant Valid()
        invariant left <= |Acts(q)| && |Acts(q)| + pending == |Acts(old(q))| + left
        invariant left == pending ==> q == old(q) && stack == old(stack) && unchanged(diagram)
        invariant left < pending ==> Actionable(old(q)[0].kind)
        decreases left
      {
        if Actionable(q[0].kind) {
          r := Dispatch();
          if r.Fail? {
            return;
          }
          left := left - 1;
        } else {
          q := q[1..];
          return Fail(TypeError);
        }
      }
      r := Pass;
    }

    /** One pass of the loop of `parse` over the stream: an ignored token
        is dropped; any other is queued and counted when it has a handler;
        when `Fires` says so, the head's handler runs on the queue with
        `t` at its back. Otherwise nothing but the queue and the count
        changes. `moves` are the builder's moves: `t` queued unless
        ignored, then the handler that ran, if any. */
    method Feed(t: Token, pending: nat) returns (p: nat, r: Outcome, ghost moves: seq<Snap>)
      requires Valid()
      modifies this, diagram
      ensures Valid()
      ensures r.Fail? ==> Fires(old(q), t, pending) && r.error in Raisable((old(q) + [t])[0].kind)
      ensures Ignored(t.kind) ==> p == pending && q == old(q)
      ensures !Ignored(t.kind) && !Fires(old(q), t, pending) ==>
        && p == pending + (if Actionable(t.kind) then 1 else 0)
        && q == old(q) + [t]
      ensures !Fires(old(q), t, pending) ==> stack == old(stack) && unchanged(diagram)
      ensures Fires(old(q), t, pending) && r.Pass? ==> p + 1 == pending + (if Actionable(t.kind) then 1 else 0)
      ensures r.Pass? ==>
        && Acts(old(q)) + Acts([t]) == Fired(old(q), t, pending) + Acts(q)
        && |Acts(q)| + pending == |Acts(old(q))| + p
      ensures old(diagram.stateNames).Keys <= diagram.stateNames.Keys
      ensures old(diagram.transitions) <= diagram.transitions
      ensures Reading(old(Snapshot()), Snapshot(), Keep(t), r, Fired(old(q), t, pending), moves)
    {
      p, r, moves := pending, Pass, [];
      if Ignored(t.kind) {
        assert Acts([t]) == [];
        NoMoves(Snapshot());
        return;
      }
      if Actionable(t.kind) {
        p := p + 1;
      }
      ActsConcat(q, [t]);
      q := q + [t];
      ghost var s1 := Snapshot();
      QueuedOnly(old(Snapshot()), t, s1);
      moves := [s1];
      if p > 1 && Actionable(q[0].kind) {
        r := Dispatch();
        if r.Pass? {
          p := p - 1;
        }
        QueueStep(old(Snapshot()), t);
        if r.Pass? {
          RanStep(s1, Snapshot());
        } else {
          HandledRaised(s1, Snapshot(), r);
        }
        QueuedThenRan(Step, Raised, old(Snapshot()), t, s1, Snapshot(), r, Fired(old(q), t, pending));
        moves := [s1, Snapshot()];
      }
    }

    /** One pass of the loop of `parse`, as `Read` sees it: feeding the
        token at `i` extends the moves made from `s0` while reading, which
        queued the kept tokens before `i` and ran the heads of `trace`; a
        failure ends them with the handler that raised. `a` counts the
        actionable tokens queued before the stream was read. */
    method Advance(tokens: seq<Token>, i: nat, pending: nat, ghost a: nat, ghost trace: seq<Token>,
                   ghost s0: Snap, ghost moves: seq<Snap>)
      returns (p: nat, r: Outcome, ghost trace': seq<Token>, ghost moves': seq<Snap>)
      requires Valid() && i < |tokens| && |Acts(q)| == a + pending
      requires Reading(s0, Snapshot(), Kept(tokens[..i]), Pass, trace, moves)
      modifies this, diagram
      ensures Valid()
      ensures r.Pass? ==> |Acts(q)| == a + p
      ensures Reading(s0, Snapshot(), Kept(tokens[..i + 1]), r, trace', moves')
    {
      ghost var c := Snapshot();
      ghost var fired := Fired(q, tokens[i], pending);
      ghost var fed;
      p, r, fed := Feed(tokens[i], pending);
      FeedJoin(Step, Raised, s0, c, Snapshot(), moves, fed, tokens, i, r, trace, fired);
      trace', moves' := trace + fired, moves + fed;
    }

    /** The loop of `parse` over the stream: every token is fed in order
        and `pending` counts the actionable tokens queued but not yet
        handled. `moves` are the builder's moves: on success a chain that
        queued the stream's tokens that are not ignored and ran the heads
        of `trace`, which with what is still queued hold the actionable
        tokens of the old queue and of the stream. A failure stops the loop
        at once: `moves` are then such a chain over a prefix of those
        tokens, ended by the handler that raised, whose head ends `trace`. */
    method Read(tokens: seq<Token>)
      returns (pending: nat, r: Outcome, ghost trace: seq<Token>, ghost moves: seq<Snap>, ghost kept: seq<Token>)
      requires Valid()
      modifies this, diagram
      ensures Valid()
      ensures r.Pass? ==> |Acts(q)| == |Acts(old(q))| + pending
      ensures kept <= Kept(tokens) && (r.Pass? ==> kept == Kept(tokens))
      ensures Reading(old(Snapshot()), Snapshot(), kept, r, trace, moves)
    {
      trace, pending, r, moves := [], 0, Pass, [];
      ghost var s0 := Snapshot();
      NoMoves(s0);
      for i := 0 to |tokens|
        invariant Valid() && r.Pass? && |Acts(q)| == |Acts(s0.q)| + pending
        invariant s0 == old(Snapshot()) && Reading(s0, Snapshot(), Kept(tokens[..i]), Pass, trace, moves)
      {
        pending, r, trace, moves := Advance(tokens, i, pending, |Acts(s0.q)|, trace, s0, moves);
        if r.Fail? {
          kept := Kept(tokens[..i + 1]);
          KeptPrefix(tokens, i + 1);
          return;
        }
      }
      assert tokens[..|tokens|] == tokens;
      kept := Kept(tokens);
    }

    /** `parse`: the stream is read, then the rest is drained with the
        corrected `Drain`; `Parsed` says what that promises, over the moves
        the builder made. */
    method Parse(tokens: seq<Token>) returns (r: Outcome, ghost trace: seq<Token>, ghost moves: seq<Snap>)
      requires Valid()
      modifies this, diagram
      ensures Valid()
      ensures Parsed(old(Snapshot()), Snapshot(), tokens, r, trace, moves)
    {
      var pending: nat;
      ghost var s0 := Snapshot();
      ghost var kept;
      pending, r, trace, moves, kept := Read(tokens);
      if r.Pass? {
        r, trace, moves := Finish(tokens, pending, s0, trace, moves);
      } else {
        ParseOutcome(s0, Snapshot(), tokens, kept, r, trace, moves);
      }
    }

    /** The second half of `parse`, after the stream was read from the
        state `s0` with the moves `read`: the queue is drained, and the
        moves of both halves are those of a parse. */
    method Finish(tokens: seq<Token>, pending: nat, ghost s0: Snap, ghost read: seq<Token>, ghost readMoves: seq<Snap>)
      returns (r: Outcome, ghost trace: seq<Token>, ghost moves: seq<Snap>)
      requires Valid()
      requires Reading(s0, Snapshot(), Kept(tokens), Pass, read, readMoves)
      requires |Acts(q)| == |Acts(s0.q)| + pending
      modifies this, diagram
      ensures Valid()
      ensures Parsed(s0, Snapshot(), tokens, r, trace, moves)
    {
      ghost var s1 := Snapshot();
      ghost var more, drained;
      r, more, drained := Drain(pending);
      ReadThenDrain(Step, Raised, s0, s1, Snapshot(), Kept(tokens), read, readMoves, r, more, drained);
      trace, moves := read + more, readMoves + drained;
      ParseOutcome(s0, Snapshot(), tokens, Kept(tokens), r, trace, moves);
    }
  }

  /** The finding on the drain loop, on `StrayQueue` with one state name
      pending: the loop as written raises TypeError at the stray head; the
      corrected one drops it and declares `Idle`. */
  method StrayHead() returns (asWritten: Outcome, corrected: Outcome, declared: bool)
    ensures asWritten == Fail(TypeError)
    ensures corrected.Pass? && declared
  {
    var w := new StateModelBuilder();
    w.q := StrayQueue;
    asWritten := w.DrainAsWritten(1);
    var b := new StateModelBuilder();
    b.q := StrayQueue;
    ghost var s0 := b.Snapshot();
    ghost var trace, moves;
    corrected, trace, moves := b.Drain(1);
    StrayHeadDrained(s0, b.Snapshot(), corrected, trace, moves);
    declared := "Idle" in b.diagram.stateNames;
  }
}
